/** The worklist of initrd-put over a file system with symbolic links: enqueue_path (utils/initrd-put/initrd-put.c:391-433)
    canonicalises every link it meets, so the finished tree is closed under following links. */
module TreeLinks {
  import opened Basics
  import opened Paths
  import C = Canonicalize
  import W = Worklist

  // ----- the least closed set -----

  /** a is path without its last name, and names something. */
  ghost predicate IsParent(a: string, path: string) {
    0 < |a| < |path| && path[..|a|] == a && path[|a|] == '/' && '/' !in path[|a| + 1..]
  }

  /** x in the tree calls for y: y holds x, x is a directory that is walked and holds y, x is a link and y is met or
      reached in following it, or x is a regular file and y is its interpreter or a library of its. */
  ghost predicate CallsFor(sys: W.System, prefix: Option<string>, x: string, y: string) {
    || (IsParent(y, x) && prefix != Some(x))
    || (sys.lstat(x) == Some(W.Directory) && sys.walked(x) && y in sys.below(x))
    || (sys.lstat(x) == Some(W.Symlink) && sys.canonical(x).Some? && y in sys.canonical(x).value)
    || (sys.lstat(x) == Some(W.Regular) && sys.contents(x).Some? && y in sys.contents(x).value)
  }

  /** x cannot be looked at, followed or read. */
  ghost predicate Fails(sys: W.System, x: string) {
    || sys.lstat(x) == None
    || (sys.lstat(x) == Some(W.Symlink) && sys.canonical(x) == None)
    || (sys.lstat(x) == Some(W.Regular) && sys.contents(x) == None)
  }

  /** The set holds the roots and what its members call for, but for what is excluded or present already. */
  ghost predicate Closed(w: W.World, sys: W.System, prefix: Option<string>, roots: seq<string>, s: iset<string>) {
    && (forall r | r in roots && !w.excluded(r) && !w.present(r) :: r in s)
    && forall x, y | x in s && CallsFor(sys, prefix, x, y) && !w.excluded(y) && !w.present(y) :: y in s
  }

  lemma ParentItemIff(prefix: Option<string>, path: string, a: string)
    ensures a in W.ParentItem(prefix, path) <==> IsParent(a, path) && prefix != Some(path)
  {
    var n := W.LastSlash(path);
    if IsParent(a, path) {
      W.LastSlashIsLast(path, |a|);
      assert forall i | |a| < i < |path| :: path[i] == path[|a| + 1..][i - |a| - 1];
    } else if a in W.ParentItem(prefix, path) {
      forall i | n <= i < |path| ensures path[i] != '/' {
        if path[i] == '/' {
          W.LastSlashIsLast(path, i);
        }
      }
    }
  }

  lemma ProcessedMeans(sys: W.System, prefix: Option<string>, x: string)
    ensures W.EnqueuePath(sys, prefix, x).None? <==> Fails(sys, x)
    ensures !Fails(sys, x) ==> forall y :: y in W.EnqueuePath(sys, prefix, x).value <==> CallsFor(sys, prefix, x, y)
  {
    forall y ensures y in W.ParentItem(prefix, x) <==> IsParent(y, x) && prefix != Some(x) {
      ParentItemIff(prefix, x, y);
    }
  }

  /** The worklist runs enqueue_path. */
  ghost predicate Walks(w: W.World, sys: W.System, prefix: Option<string>) {
    forall s :: w.deps(s) == W.EnqueuePath(sys, prefix, s)
  }

  lemma {:induction false} DerivedInside(w: W.World, sys: W.System, prefix: Option<string>, roots: seq<string>, s: iset<string>, p: seq<string>)
    requires Walks(w, sys, prefix) && Closed(w, sys, prefix, roots, s) && W.Derivation(w, roots, p)
    ensures p[|p| - 1] in s
    decreases |p|
  {
    var n := |p| - 1;
    assert W.Wanted(w, p[n]);
    if n > 0 {
      DerivedInside(w, sys, prefix, roots, s, p[..n]);
      assert W.DependsOn(w, p[n - 1], p[n]);
      ProcessedMeans(sys, prefix, p[n - 1]);
    }
  }

  lemma ReachedInside(w: W.World, sys: W.System, prefix: Option<string>, roots: seq<string>, s: iset<string>)
    requires Walks(w, sys, prefix) && Closed(w, sys, prefix, roots, s)
    ensures forall x | W.Reached(w, roots, x) :: x in s
  {
    forall x | W.Reached(w, roots, x) ensures x in s {
      var p :| W.Derivation(w, roots, p) && p[|p| - 1] == x;
      DerivedInside(w, sys, prefix, roots, s, p);
    }
  }

  lemma ReachedClosed(w: W.World, sys: W.System, prefix: Option<string>, roots: seq<string>, s: iset<string>)
    requires Walks(w, sys, prefix) && !W.Stops(w, roots) && forall x :: x in s <==> W.Reached(w, roots, x)
    ensures Closed(w, sys, prefix, roots, s) && forall x | x in s :: !Fails(sys, x)
  {
    forall x | x in s ensures !Fails(sys, x) {
      ProcessedMeans(sys, prefix, x);
    }
    forall r | r in roots && !w.excluded(r) && !w.present(r) ensures r in s {
      W.BecauseIsReached(w, roots, {}, r);
    }
    forall x, y | x in s && CallsFor(sys, prefix, x, y) && !w.excluded(y) && !w.present(y) ensures y in s {
      ProcessedMeans(sys, prefix, x);
      DependencyInTree(w, roots, x, y);
    }
  }

  /** The search stops the program exactly when every closed set has a member that fails. */
  lemma StopsIffFails(w: W.World, sys: W.System, prefix: Option<string>, roots: seq<string>)
    requires Walks(w, sys, prefix)
    ensures W.Stops(w, roots) <==> forall s | Closed(w, sys, prefix, roots, s) :: exists x :: x in s && Fails(sys, x)
  {
    if W.Stops(w, roots) {
      var x :| W.Reached(w, roots, x) && w.deps(x).None?;
      ProcessedMeans(sys, prefix, x);
      forall s | Closed(w, sys, prefix, roots, s) ensures x in s && Fails(sys, x) {
        ReachedInside(w, sys, prefix, roots, s);
      }
    } else {
      ReachedClosed(w, sys, prefix, roots, iset x | W.Reached(w, roots, x));
    }
  }

  /** initrd-put's search (lines 1084-1144): it goes through exactly when some closed set has no member that fails,
      and then the tree is the least closed set. */
  method BuildTree(g: W.Globals, w: W.World, sys: W.System, prefix: Option<string>, roots: seq<string>, ghost universe: set<string>)
    returns (ok: bool)
    requires g.Valid() && g.items == [] && g.files == map[] && Walks(w, sys, prefix) && W.Within(w, roots, universe)
    modifies g, g.repr
    ensures ok <==> exists s :: Closed(w, sys, prefix, roots, s) && forall x | x in s :: !Fails(sys, x)
    ensures ok ==> Closed(w, sys, prefix, roots, iset x | x in g.files) && forall x | x in g.files :: !Fails(sys, x)
    ensures ok ==> forall s, x | Closed(w, sys, prefix, roots, s) && x in g.files :: x in s
  {
    ok := W.Run(g, w, roots, universe);
    StopsIffFails(w, sys, prefix, roots);
    if ok {
      ReachedClosed(w, sys, prefix, roots, iset x | x in g.files);
      forall s | Closed(w, sys, prefix, roots, s) ensures forall x | x in g.files :: x in s {
        ReachedInside(w, sys, prefix, roots, s);
      }
    }
  }

  // ----- links -----

  /** What canonicalising s enqueues; a failure stops the program. */
  function Canonicalized(fs: FileSystem, cwd: Path, s: string): Option<seq<string>> {
    if s == "" then None
    else
      match C.Reported(Canon(fs, C.MAXSYMLINKS, C.StartOf(cwd, s), s))
      case Enqueued(items) => Some(items)
      case Failed(_) => None
  }

  /** The worklist runs enqueue_path on this file system. */
  ghost predicate WalksFiles(w: W.World, sys: W.System, prefix: Option<string>, fs: FileSystem, cwd: Path) {
    && Walks(w, sys, prefix)
    && forall s :: sys.canonical(s) == Canonicalized(fs, cwd, s)
  }

  lemma DependencyInTree(w: W.World, roots: seq<string>, x: string, y: string)
    requires W.Reached(w, roots, x) && W.DependsOn(w, x, y) && W.Wanted(w, y)
    ensures W.Reached(w, roots, y)
  {
    assert x in {x};
    W.BecauseIsReached(w, roots, {x}, y);
  }

  lemma LinkItems(w: W.World, sys: W.System, prefix: Option<string>, fs: FileSystem, cwd: Path, x: string)
    requires WalksFiles(w, sys, prefix, fs, cwd) && sys.lstat(x) == Some(W.Symlink) && w.deps(x).Some?
    ensures x != "" && var r := Canon(fs, C.MAXSYMLINKS, C.StartOf(cwd, x), x);
            r.Ok? && forall p | p in r.links + [r.path] :: W.DependsOn(w, x, Text(p))
  {
    assert sys.canonical(x) == Canonicalized(fs, cwd, x) && w.deps(x) == W.EnqueuePath(sys, prefix, x);
    var r := Canon(fs, C.MAXSYMLINKS, C.StartOf(cwd, x), x);
    var items := C.Texts(r.links) + [Text(r.path)];
    assert w.deps(x).value == W.ParentItem(prefix, x) + items;
    forall p | p in r.links + [r.path] ensures Text(p) in items {
      if p in r.links {
        var i :| 0 <= i < |r.links| && r.links[i] == p;
        assert C.Texts(r.links)[i] == Text(p);
      }
    }
  }

  /** When the worklist has finished, every symbolic link in the tree resolves, and each link met on the way and
      the path at the end, which has no link in it, are in the tree too, unless excluded or present already. */
  lemma LinksClosed(w: W.World, sys: W.System, prefix: Option<string>, fs: FileSystem, cwd: Path,
                    roots: seq<string>, tree: set<string>, x: string)
    requires WellFormed(fs) && IsDir(fs, cwd) && WalksFiles(w, sys, prefix, fs, cwd)
    requires !W.Stops(w, roots) && forall s :: s in tree <==> W.Reached(w, roots, s)
    requires x in tree && sys.lstat(x) == Some(W.Symlink)
    ensures x != "" && var r := Resolve(fs, 20, if x[0] == '/' then [] else cwd, x);
            && r.Ok? && Canonical(fs, r.path) && (forall l | l in r.links :: l in fs && fs[l].Link?)
            && forall p | p in r.links + [r.path] && W.Wanted(w, Text(p)) :: Text(p) in tree
  {
    assert W.Reached(w, roots, x) && w.deps(x).Some?;
    LinkItems(w, sys, prefix, fs, cwd, x);
    C.EnqueuedIsResolved(fs, cwd, x);
    var r := Canon(fs, C.MAXSYMLINKS, C.StartOf(cwd, x), x);
    forall p | p in r.links + [r.path] && W.Wanted(w, Text(p)) ensures Text(p) in tree {
      DependencyInTree(w, roots, x, Text(p));
    }
  }
}

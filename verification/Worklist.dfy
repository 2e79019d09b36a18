/** The queue, the tree and the worklist of initrd-put
    (utils/initrd-put/queue.c, utils/initrd-put/tree.c, utils/initrd-put/initrd-put.c:1094-1144). */
module Worklist {
  import opened Basics

  class File {
    const src: string
    var next: File?
    var prev: File?

    constructor (src: string)
      ensures this.src == src && next == null && prev == null
    {
      this.src := src;
      next, prev := null, null;
    }
  }

  ghost function NextOf(items: seq<File>, i: nat): File?
    requires i < |items|
  {
    if i + 1 < |items| then items[i + 1] else null
  }

  ghost function PrevOf(items: seq<File>, i: nat): File?
    requires i < |items|
  {
    if i > 0 then items[i - 1] else null
  }

  ghost predicate Apart(items: seq<File>, i: nat, j: nat) {
    i < j < |items| ==> items[i] != items[j]
  }

  ghost predicate Distinct(items: seq<File>) {
    forall i: nat, j: nat {:trigger Apart(items, i, j)} :: Apart(items, i, j)
  }

  lemma DistinctFront(items: seq<File>, f: File)
    requires Distinct(items) && f !in items
    ensures Distinct([f] + items)
  {
    forall i: nat, j: nat ensures Apart([f] + items, i, j) {
      if 0 < i < j < |items| + 1 {
        assert Apart(items, i - 1, j - 1);
      }
    }
  }

  lemma DistinctWithout(items: seq<File>, k: nat)
    requires Distinct(items) && k < |items|
    ensures Distinct(Without(items, k)) && items[k] !in Without(items, k)
  {
    var rest := Without(items, k);
    forall i: nat, j: nat ensures Apart(rest, i, j) {
      assert Apart(items, if i < k then i else i + 1, if j < k then j else j + 1);
    }
    forall i | 0 <= i < |rest| ensures rest[i] != items[k] {
      assert Apart(items, i, k) && Apart(items, k, i + 1);
    }
  }

  ghost predicate Linked(items: seq<File>)
    reads items
  {
    && Distinct(items)
    && (forall i {:trigger items[i].next} | 0 <= i < |items| :: items[i].next == NextOf(items, i))
    && (forall i {:trigger items[i].prev} | 0 <= i < |items| :: items[i].prev == PrevOf(items, i))
  }

  /** Put a file in front of the list (queue.c:99-106). */
  method LinkFront(head: File?, f: File, ghost items: seq<File>)
    requires Linked(items) && head == Head(items)
    requires f !in items && f.next == null && f.prev == null
    modifies f, head
    ensures Linked([f] + items)
  {
    ghost var all := [f] + items;
    DistinctFront(items, f);
    if head != null {
      head.prev := f;
      f.next := head;
    }
    forall i | 0 <= i < |all| ensures all[i].next == NextOf(all, i) && all[i].prev == PrevOf(all, i) {
      if i > 0 {
        assert all[i] == items[i - 1];
        assert items[i - 1].next == NextOf(items, i - 1);
        assert Apart(items, 0, i - 1) && (i > 1 ==> items[i - 1].prev == PrevOf(items, i - 1));
      }
    }
  }

  ghost function Without<T>(s: seq<T>, k: nat): seq<T>
    requires k < |s|
  {
    s[..k] + s[k + 1..]
  }

  /** The neighbours of the file that was at j once the file at k is gone. */
  lemma Neighbours(items: seq<File>, k: nat, j: nat)
    requires k < |items| && j < |items| && j != k
    ensures var rest, i := Without(items, k), if j < k then j else j - 1;
            && i < |rest| && rest[i] == items[j]
            && NextOf(rest, i) == (if j == k - 1 then NextOf(items, k) else NextOf(items, j))
            && PrevOf(rest, i) == (if j == k + 1 then PrevOf(items, k) else PrevOf(items, j))
  {
  }

  /** Take a file out of the list (queue.c:119-122). */
  method Unlink(f: File, ghost items: seq<File>, ghost k: nat)
    requires Linked(items) && k < |items| && items[k] == f
    modifies items
    ensures Linked(Without(items, k)) && f.next == old(f.next)
  {
    ghost var rest, prev, next := Without(items, k), PrevOf(items, k), NextOf(items, k);
    assert f.prev == prev && f.next == next;
    DistinctWithout(items, k);
    assert prev != null ==> Apart(items, k - 1, k);
    assert next != null ==> Apart(items, k, k + 1);
    if f.prev != null {
      f.prev.next := f.next;
    }
    if f.next != null {
      f.next.prev := f.prev;
    }
    forall i | 0 <= i < |rest| ensures rest[i].next == NextOf(rest, i) && rest[i].prev == PrevOf(rest, i) {
      var j := if i < k then i else i + 1;
      Neighbours(items, k, j);
      assert old(items[j].next) == NextOf(items, j) && old(items[j].prev) == PrevOf(items, j);
      assert k > 0 ==> Apart(items, j, k - 1) && Apart(items, k - 1, j);
      assert Apart(items, j, k + 1) && Apart(items, k + 1, j);
    }
  }

  ghost function Head(items: seq<File>): File? {
    if items == [] then null else items[0]
  }

  /** Take a file out of the list and keep the head up to date (queue.c:119-124). */
  method Remove(head: File?, f: File, ghost items: seq<File>, ghost k: nat) returns (head': File?)
    requires Linked(items) && k < |items| && items[k] == f && head == Head(items)
    modifies items
    ensures Linked(Without(items, k)) && head' == Head(Without(items, k))
  {
    HeadWithout(items, k);
    head' := head;
    Unlink(f, items, k);
    if head == f {
      head' := f.next;
    }
  }

  ghost predicate Named(items: seq<File>, index: map<string, File>) {
    && (forall f | f in items :: f.src in index && index[f.src] == f)
    && forall s | s in index :: index[s] in items && index[s].src == s
  }

  lemma NamedFront(items: seq<File>, index: map<string, File>, f: File)
    requires Named(items, index) && f.src !in index
    ensures Named([f] + items, index[f.src := f]) && f !in items
  {
  }

  lemma NamedWithout(items: seq<File>, index: map<string, File>, k: nat)
    requires Named(items, index) && Distinct(items) && k < |items|
    ensures Named(Without(items, k), index - {items[k].src})
  {
    var rest := Without(items, k);
    DistinctWithout(items, k);
    forall f | f in rest ensures f in items && f.src != items[k].src {
      assert index[f.src] == f && items[k] in items;
    }
    forall s | s in index && s != items[k].src ensures index[s] in rest {
      var i :| 0 <= i < |items| && items[i] == index[s];
      assert rest[if i < k then i else i - 1] == items[i];
    }
  }

  lemma HeadWithout(items: seq<File>, k: nat)
    requires Linked(items) && k < |items|
    ensures var rest := Without(items, k);
            if items[0] == items[k] then items[k].next == Head(rest) else items[0] == Head(rest)
  {
    assert items[k].next == NextOf(items, k) && Apart(items, 0, k);
  }

  /** The globals of queue.c and tree.c; the search trees are maps. */
  class Globals {
    var inqueue: File?
    var queueNr: nat
    var queued: map<string, File>
    var files: map<string, File>
    ghost var items: seq<File>
    ghost var repr: set<File>

    /** The list and its index hold the same files, each name once; the counter is the length of the list. */
    ghost predicate Valid()
      reads this, repr
    {
      && (forall f | f in items :: f in repr)
      && Linked(items) && Named(items, queued)
      && inqueue == Head(items)
      && queueNr == |items|
    }

    constructor ()
      ensures Valid() && items == [] && files == map[] && repr == {}
    {
      inqueue, queueNr, queued, files, items, repr := null, 0, map[], map[], [], {};
    }

    /** is_path_added (tree.c:26-31). */
    predicate PathAdded(s: string)
      reads this
    {
      s in files || s in queued
    }

    /** enqueue_item (queue.c:55-110); excluded says that an exclusion pattern matches. */
    method Enqueue(s: string, excluded: bool) returns (f: File?)
      requires Valid()
      modifies this, repr
      ensures Valid() && files == old(files) && fresh(repr - old(repr))
      ensures excluded || old(PathAdded(s)) ==> items == old(items) && queued == old(queued)
      ensures !excluded && !old(PathAdded(s)) ==> f != null && fresh(f) && f.src == s && items == [f] + old(items)
      ensures !excluded && !old(PathAdded(s)) ==> queued.Keys == old(queued.Keys) + {s}
    {
      if excluded {
        return null;
      }
      if s in queued {
        return queued[s];
      }
      if s in files {
        return null;
      }
      var added := new File(s);
      NamedFront(items, queued, added);
      queued := queued[s := added];
      LinkFront(inqueue, added, items);
      inqueue := added;
      queueNr := queueNr + 1;
      items, repr := [added] + items, repr + {added};
      return added;
    }

    /** tree_add_file (tree.c:33-45). */
    method TreeAdd(f: File) returns (added: bool)
      requires Valid()
      modifies this`files
      ensures Valid() && added == (f.src !in old(files))
      ensures files == if added then old(files)[f.src := f] else old(files)
    {
      added := f.src !in files;
      if added {
        files := files[f.src := f];
      }
    }

    /** dequeue_item (queue.c:112-126) for the file at position k of the list. */
    method Dequeue(f: File, ghost k: nat)
      requires Valid() && k < |items| && items[k] == f
      modifies this, repr
      ensures Valid() && files == old(files) && items == old(Without(items, k)) && repr == old(repr)
      ensures queued == old(queued) - {f.src}
    {
      NamedWithout(items, queued, k);
      queued := queued - {f.src};
      inqueue := Remove(inqueue, f, items, k);
      queueNr := queueNr - 1;
      items := Without(items, k);
    }
  }

  // ----- the set the worklist computes -----

  /** What processing a path enqueues, or None when the program stops there; which paths an exclusion pattern
      matches; and which the destination already holds as something else than a directory. */
  datatype World = World(deps: string -> Option<seq<string>>, excluded: string -> bool, present: string -> bool)

  ghost predicate DependsOn(w: World, x: string, y: string) {
    w.deps(x).Some? && y in w.deps(x).value
  }

  predicate Wanted(w: World, s: string) {
    !w.excluded(s) && !w.present(s)
  }

  /** A way from a root to the last path, over wanted paths only. */
  ghost predicate Derivation(w: World, roots: seq<string>, p: seq<string>) {
    && |p| > 0 && p[0] in roots
    && (forall i | 0 <= i < |p| :: Wanted(w, p[i]))
    && forall i | 0 < i < |p| :: DependsOn(w, p[i - 1], p[i])
  }

  ghost predicate Reached(w: World, roots: seq<string>, s: string) {
    exists p :: Derivation(w, roots, p) && p[|p| - 1] == s
  }

  /** A path that stops the program. */
  ghost predicate Stops(w: World, roots: seq<string>) {
    exists x :: Reached(w, roots, x) && w.deps(x).None?
  }

  // ----- the invariant, on names -----

  ghost predicate Because(w: World, roots: seq<string>, done: set<string>, s: string) {
    s in roots || exists x :: x in done && DependsOn(w, x, s)
  }

  ghost predicate Sound(w: World, roots: seq<string>, done: set<string>, queued: set<string>) {
    && done !! queued
    && (forall x {:trigger Reached(w, roots, x)} | x in done :: Reached(w, roots, x))
    && forall x {:trigger Because(w, roots, done, x)} | x in queued :: !w.excluded(x) && Because(w, roots, done, x)
  }

  /** Processing stopped at none of these. */
  ghost predicate Clear(w: World, done: set<string>) {
    forall x | x in done :: w.deps(x).Some?
  }

  ghost predicate Covered(w: World, done: set<string>, queued: set<string>, s: string) {
    s in done || s in queued || !Wanted(w, s)
  }

  ghost predicate Complete(w: World, roots: seq<string>, done: set<string>, queued: set<string>) {
    && (forall r | r in roots :: Covered(w, done, queued, r))
    && forall x, y | x in done && DependsOn(w, x, y) :: Covered(w, done, queued, y)
  }

  lemma DerivationExtends(w: World, roots: seq<string>, p: seq<string>, s: string)
    requires Derivation(w, roots, p) && DependsOn(w, p[|p| - 1], s) && Wanted(w, s)
    ensures Derivation(w, roots, p + [s])
  {
    var q := p + [s];
    forall i | 0 < i < |q| ensures DependsOn(w, q[i - 1], q[i]) {
      assert q[i - 1] == p[i - 1];
    }
  }

  lemma BecauseIsReached(w: World, roots: seq<string>, done: set<string>, s: string)
    requires (forall x | x in done :: Reached(w, roots, x)) && Because(w, roots, done, s) && Wanted(w, s)
    ensures Reached(w, roots, s)
  {
    if s in roots {
      assert Derivation(w, roots, [s]) && [s][|[s]| - 1] == s;
    } else {
      var x :| x in done && DependsOn(w, x, s);
      var p :| Derivation(w, roots, p) && p[|p| - 1] == x;
      DerivationExtends(w, roots, p, s);
      assert (p + [s])[|p + [s]| - 1] == s;
    }
  }

  /** What enqueueing a list of paths adds to the queue. */
  ghost function Added(w: World, ds: seq<string>, done: set<string>, queued: set<string>): set<string> {
    set d | d in ds && !w.excluded(d) && d !in done && d !in queued
  }

  lemma TakeSound(w: World, roots: seq<string>, done: set<string>, queued: set<string>, x: string)
    requires Sound(w, roots, done, queued) && x in queued && !w.present(x) && w.deps(x).Some?
    ensures var done' := done + {x};
            Sound(w, roots, done', queued - {x} + Added(w, w.deps(x).value, done', queued))
  {
    var done' := done + {x};
    BecauseIsReached(w, roots, done, x);
    forall y | y in queued - {x} + Added(w, w.deps(x).value, done', queued) ensures !w.excluded(y) && Because(w, roots, done', y) {
      if y in queued {
        assert Because(w, roots, done, y);
        if y !in roots {
          var z :| z in done && DependsOn(w, z, y);
          assert z in done';
        }
      } else {
        assert x in done' && DependsOn(w, x, y);
      }
    }
  }

  lemma TakeComplete(w: World, roots: seq<string>, done: set<string>, queued: set<string>, x: string)
    requires Complete(w, roots, done, queued) && w.deps(x).Some?
    ensures var done' := done + {x};
            Complete(w, roots, done', queued - {x} + Added(w, w.deps(x).value, done', queued))
  {
  }

  lemma SkipKeeps(w: World, roots: seq<string>, done: set<string>, queued: set<string>, x: string)
    requires Sound(w, roots, done, queued) && Complete(w, roots, done, queued) && w.present(x)
    ensures Sound(w, roots, done, queued - {x}) && Complete(w, roots, done, queued - {x})
  {
  }

  lemma {:induction false} CompleteReaches(w: World, roots: seq<string>, done: set<string>, p: seq<string>)
    requires Complete(w, roots, done, {}) && Derivation(w, roots, p)
    ensures p[|p| - 1] in done
    decreases |p|
  {
    if |p| == 1 {
      assert Covered(w, done, {}, p[0]);
    } else {
      var n := |p| - 1;
      assert Derivation(w, roots, p[..n]);
      CompleteReaches(w, roots, done, p[..n]);
      assert DependsOn(w, p[n - 1], p[n]) && Covered(w, done, {}, p[n]);
    }
  }

  /** When nothing is queued, what is done is exactly what the roots lead to. */
  lemma EmptyQueueIsClosure(w: World, roots: seq<string>, done: set<string>)
    requires Sound(w, roots, done, {}) && Complete(w, roots, done, {}) && Clear(w, done)
    ensures (forall s :: s in done <==> Reached(w, roots, s)) && !Stops(w, roots)
  {
    forall s | Reached(w, roots, s) ensures s in done {
      var p :| Derivation(w, roots, p) && p[|p| - 1] == s;
      CompleteReaches(w, roots, done, p);
    }
  }

  // ----- the loops -----

  lemma AddedFirst(w: World, ds: seq<string>, done: set<string>, queued: set<string>)
    requires ds != []
    ensures var d := ds[0]; var queued' := queued + (if w.excluded(d) || d in done || d in queued then {} else {d});
            queued + Added(w, ds, done, queued) == queued' + Added(w, ds[1..], done, queued')
  {
    assert ds == [ds[0]] + ds[1..];
  }

  lemma Pushed(more: seq<File>, f: File, before: seq<File>)
    ensures more + ([f] + before) == more + [f] + before
  {
  }

  /** Enqueue one path after another. */
  method EnqueueAll(g: Globals, w: World, paths: seq<string>) returns (ghost pushed: seq<File>)
    requires g.Valid()
    modifies g, g.repr
    ensures g.Valid() && g.files == old(g.files) && g.items == pushed + old(g.items) && fresh(g.repr - old(g.repr))
    ensures g.queued.Keys == old(g.queued.Keys) + Added(w, paths, old(g.files.Keys), old(g.queued.Keys))
    decreases |paths|
  {
    if paths == [] {
      return [];
    }
    AddedFirst(w, paths, g.files.Keys, g.queued.Keys);
    ghost var known, before := w.excluded(paths[0]) || g.PathAdded(paths[0]), g.items;
    var f := g.Enqueue(paths[0], w.excluded(paths[0]));
    pushed := EnqueueAll(g, w, paths[1..]);
    if !known {
      Pushed(pushed, f, before);
      pushed := pushed + [f];
    }
  }

  /** The queue and the tree stand for a sound and complete state of the search. */
  ghost predicate Searching(g: Globals, w: World, roots: seq<string>)
    reads g, g.repr
  {
    && g.Valid()
    && Sound(w, roots, g.files.Keys, g.queued.Keys) && Complete(w, roots, g.files.Keys, g.queued.Keys) && Clear(w, g.files.Keys)
  }

  lemma Taken(items: seq<File>, more: seq<File>, pushed: seq<File>, todo: seq<File>)
    requires items == more + (pushed + todo) && todo != []
    ensures items == more + pushed + todo && |more + pushed| < |items| && items[|more + pushed|] == todo[0]
    ensures Without(items, |more + pushed|) == more + pushed + todo[1..]
  {
  }

  lemma TakenNames(done: set<string>, queued: set<string>, added: set<string>, x: string)
    requires x !in added
    ensures queued + added - {x} == queued - {x} + added
  {
  }

  /** What becomes of the file that the inner loop stands at (lines 1098-1140).  pushed was enqueued during this pass
      and todo is what it still has to visit.  The file is not in the tree yet, so tree_add_file succeeds. */
  method Handle(g: Globals, w: World, f: File, ghost pushed: seq<File>, ghost todo: seq<File>)
    returns (ok: bool, ghost pushed': seq<File>)
    requires g.Valid() && todo != [] && todo[0] == f && g.items == pushed + todo && f.src !in g.files
    modifies g, g.repr
    ensures ok <==> w.present(f.src) || w.deps(f.src).Some?
    ensures ok ==> g.Valid() && g.items == pushed' + todo[1..] && fresh(g.repr - old(g.repr))
    ensures ok && w.present(f.src) ==> g.files == old(g.files) && g.queued.Keys == old(g.queued.Keys) - {f.src} && pushed' == pushed
    ensures ok && !w.present(f.src) ==> g.files.Keys == old(g.files.Keys) + {f.src}
    ensures ok && !w.present(f.src) ==>
              g.queued.Keys == old(g.queued.Keys) - {f.src}
                             + Added(w, w.deps(f.src).value, old(g.files.Keys) + {f.src}, old(g.queued.Keys))
  {
    ok, pushed' := true, pushed;
    if w.present(f.src) {
      Taken(g.items, [], pushed, todo);
      g.Dequeue(f, |pushed|);
      return;
    }
    ghost var done, queued := g.files.Keys, g.queued.Keys;
    var added := g.TreeAdd(f);
    assert added;
    var deps := w.deps(f.src);
    if deps.None? {
      return false, pushed;
    }
    ghost var more := EnqueueAll(g, w, deps.value);
    Taken(g.items, more, pushed, todo);
    TakenNames(done, queued, Added(w, deps.value, done + {f.src}, queued), f.src);
    g.Dequeue(f, |more + pushed|);
    pushed' := more + pushed;
  }

  lemma HandleKeeps(w: World, roots: seq<string>, done: set<string>, queued: set<string>, x: string)
    requires Sound(w, roots, done, queued) && Complete(w, roots, done, queued) && x in queued
    ensures w.present(x) ==> Sound(w, roots, done, queued - {x}) && Complete(w, roots, done, queued - {x})
    ensures !w.present(x) ==> Reached(w, roots, x)
    ensures !w.present(x) && w.deps(x).Some? ==>
              var done', queued' := done + {x}, queued - {x} + Added(w, w.deps(x).value, done + {x}, queued);
              Sound(w, roots, done', queued') && Complete(w, roots, done', queued')
  {
    if w.present(x) {
      SkipKeeps(w, roots, done, queued, x);
    } else {
      BecauseIsReached(w, roots, done, x);
      if w.deps(x).Some? {
        TakeSound(w, roots, done, queued, x);
        TakeComplete(w, roots, done, queued, x);
      }
    }
  }

  /** The inner loop with the bookkeeping of the search (lines 1096-1142). */
  method Process(g: Globals, w: World, f: File, ghost roots: seq<string>, ghost pushed: seq<File>, ghost todo: seq<File>)
    returns (ok: bool, next: File?, ghost pushed': seq<File>)
    requires Searching(g, w, roots) && todo != [] && todo[0] == f && g.items == pushed + todo
    modifies g, g.repr
    ensures !ok ==> Stops(w, roots)
    ensures ok ==> Searching(g, w, roots) && g.items == pushed' + todo[1..] && fresh(g.repr - old(g.repr)) && next == Head(todo[1..])
    ensures ok ==> old(g.files.Keys) <= g.files.Keys && (g.files.Keys == old(g.files.Keys) ==> pushed' == pushed)
  {
    assert f in g.items && f.src in g.queued;
    HandleKeeps(w, roots, g.files.Keys, g.queued.Keys, f.src);
    NextInList(g.items, pushed, todo);
    next := f.next;
    ok, pushed' := Handle(g, w, f, pushed, todo);
  }

  lemma NextInList(items: seq<File>, pushed: seq<File>, todo: seq<File>)
    requires Linked(items) && items == pushed + todo && todo != []
    ensures todo[0].next == Head(todo[1..])
  {
    var k := |pushed|;
    assert items[k] == todo[0] && items[k].next == NextOf(items, k);
  }

  method Pass(g: Globals, w: World, ghost roots: seq<string>) returns (ok: bool)
    requires Searching(g, w, roots)
    modifies g, g.repr
    ensures !ok ==> Stops(w, roots)
    ensures ok ==> Searching(g, w, roots) && fresh(g.repr - old(g.repr))
    ensures ok ==> old(g.files.Keys) <= g.files.Keys && (g.files.Keys == old(g.files.Keys) ==> g.items == [])
  {
    var f := g.inqueue;
    ghost var pushed, todo: seq<File> := [], g.items;
    while f != null
      invariant Searching(g, w, roots) && fresh(g.repr - old(g.repr))
      invariant g.items == pushed + todo && f == Head(todo)
      invariant old(g.files.Keys) <= g.files.Keys && (g.files.Keys == old(g.files.Keys) ==> pushed == [])
      decreases |todo|
    {
      var next;
      ok, next, pushed := Process(g, w, f, roots, pushed, todo);
      if !ok {
        return;
      }
      f, todo := next, todo[1..];
    }
    ok := true;
  }

  /** Everything the search can come to lies in a finite set. */
  ghost predicate Within(w: World, roots: seq<string>, universe: set<string>) {
    && (forall r | r in roots :: r in universe)
    && forall x, y | x in universe && DependsOn(w, x, y) :: y in universe
  }

  lemma {:induction false} DerivationWithin(w: World, roots: seq<string>, universe: set<string>, p: seq<string>)
    requires Within(w, roots, universe) && Derivation(w, roots, p)
    ensures p[|p| - 1] in universe
    decreases |p|
  {
    if |p| > 1 {
      var n := |p| - 1;
      assert Derivation(w, roots, p[..n]);
      DerivationWithin(w, roots, universe, p[..n]);
      assert DependsOn(w, p[n - 1], p[n]);
    }
  }

  lemma DoneWithin(w: World, roots: seq<string>, universe: set<string>, done: set<string>)
    requires Within(w, roots, universe) && forall x | x in done :: Reached(w, roots, x)
    ensures done <= universe
  {
    forall x | x in done ensures x in universe {
      var p :| Derivation(w, roots, p) && p[|p| - 1] == x;
      DerivationWithin(w, roots, universe, p);
    }
  }

  lemma Fewer(universe: set<string>, a: set<string>, b: set<string>)
    requires a <= b <= universe && a != b
    ensures |universe - b| < |universe - a|
  {
    var x :| x in b && x !in a;
    assert universe - a == (universe - b) + (b - a) && x in b - a;
  }

  lemma Progress(w: World, roots: seq<string>, universe: set<string>, before: set<string>, after: set<string>)
    requires Within(w, roots, universe) && before <= after && before != after && forall x | x in after :: Reached(w, roots, x)
    ensures |universe - after| < |universe - before|
  {
    DoneWithin(w, roots, universe, after);
    Fewer(universe, before, after);
  }

  ghost function Room(universe: set<string>, files: map<string, File>): nat {
    |universe - files.Keys|
  }

  /** One pass makes progress or is the last. */
  method MeasuredPass(g: Globals, w: World, ghost roots: seq<string>, ghost universe: set<string>) returns (ok: bool)
    requires Searching(g, w, roots) && Within(w, roots, universe)
    modifies g, g.repr
    ensures !ok ==> Stops(w, roots)
    ensures ok ==> Searching(g, w, roots) && fresh(g.repr - old(g.repr))
    ensures ok ==> Room(universe, g.files) < old(Room(universe, g.files)) || (g.files.Keys == old(g.files.Keys) && g.inqueue == null)
  {
    ghost var before := g.files.Keys;
    ok := Pass(g, w, roots);
    if ok && g.files.Keys != before {
      Progress(w, roots, universe, before, g.files.Keys);
    }
  }

  /** The outer loop (line 1094). */
  method Drain(g: Globals, w: World, ghost roots: seq<string>, ghost universe: set<string>) returns (ok: bool)
    requires Searching(g, w, roots) && Within(w, roots, universe)
    modifies g, g.repr
    ensures !ok ==> Stops(w, roots)
    ensures ok ==> Searching(g, w, roots) && g.inqueue == null
  {
    ghost var room := Room(universe, g.files);
    ok := true;
    while g.inqueue != null
      invariant Searching(g, w, roots) && fresh(g.repr - old(g.repr)) && ok && room == Room(universe, g.files)
      decreases room, g.inqueue != null
    {
      ok := MeasuredPass(g, w, roots, universe);
      if !ok {
        return;
      }
      room := Room(universe, g.files);
    }
  }

  method Begin(g: Globals, w: World, roots: seq<string>)
    requires g.Valid() && g.items == [] && g.files == map[]
    modifies g, g.repr
    ensures Searching(g, w, roots) && fresh(g.repr - old(g.repr))
  {
    NothingQueued(g);
    ghost var pushed := EnqueueAll(g, w, roots);
    StartSearch(w, roots, g.queued.Keys);
  }

  lemma NothingQueued(g: Globals)
    requires g.Valid() && g.items == []
    ensures g.queued.Keys == {}
  {
  }

  lemma StartSearch(w: World, roots: seq<string>, queued: set<string>)
    requires queued == Added(w, roots, {}, {})
    ensures Sound(w, roots, {}, queued) && Complete(w, roots, {}, queued)
  {
  }

  /** The worklist (lines 1084-1144): it stops the program or leaves the queue empty and in the tree exactly what the
      roots lead to over wanted paths. */
  method Run(g: Globals, w: World, roots: seq<string>, ghost universe: set<string>) returns (ok: bool)
    requires g.Valid() && g.items == [] && g.files == map[] && Within(w, roots, universe)
    modifies g, g.repr
    ensures ok <==> !Stops(w, roots)
    ensures ok ==> g.Valid() && g.items == [] && forall s :: s in g.files <==> Reached(w, roots, s)
  {
    Begin(g, w, roots);
    ok := Drain(g, w, roots, universe);
    if ok {
      NothingQueued(g);
      EmptyQueueIsClosure(w, roots, g.files.Keys);
    }
  }

  // ----- what processing one path enqueues -----

  datatype Kind = Directory | Symlink | Regular | Other

  /** The calls into the system: the kind of a path, what canonicalising it enqueues, and what a regular file's
      interpreter line and libraries enqueue; None where the program stops.  Then the paths below a directory, and the
      directories that are walked: see Recursion. */
  datatype System = System(lstat: string -> Option<Kind>, canonical: string -> Option<seq<string>>, contents: string -> Option<seq<string>>,
                           below: string -> seq<string>, walked: string -> bool)

  /** The position of the last slash, counted from 1; 0 when there is none. */
  function LastSlash(s: string): (n: nat)
    ensures n <= |s| && (n > 0 ==> s[n - 1] == '/')
  {
    if s == "" then 0 else if s[|s| - 1] == '/' then |s| else LastSlash(s[..|s| - 1])
  }

  /** enqueue_parent_directory (lines 77-87). */
  function ParentItem(prefix: Option<string>, path: string): seq<string> {
    if prefix == Some(path) || LastSlash(path) <= 1 then [] else [path[..LastSlash(path) - 1]]
  }

  /** enqueue_path (lines 391-433). */
  function EnqueuePath(sys: System, prefix: Option<string>, path: string): Option<seq<string>> {
    match sys.lstat(path)
    case None => None
    case Some(Directory) => Some(ParentItem(prefix, path) + if sys.walked(path) then sys.below(path) else [])
    case Some(Symlink) => Both(ParentItem(prefix, path), sys.canonical(path))
    case Some(Regular) => Both(ParentItem(prefix, path), sys.contents(path))
    case Some(Other) => Some(ParentItem(prefix, path))
  }

  function Both(a: seq<string>, b: Option<seq<string>>): Option<seq<string>> {
    match b
    case None => None
    case Some(items) => Some(a + items)
  }

  /** a is path without one or more of its last names. */
  ghost predicate Ancestor(a: string, path: string) {
    |a| < |path| && |a| > 0 && path[..|a|] == a && path[|a|] == '/'
  }

  lemma {:induction false} LastSlashIsLast(s: string, i: nat)
    requires i < |s| && s[i] == '/'
    ensures i < LastSlash(s) && s[LastSlash(s) - 1] == '/'
    decreases |s|
  {
    if s[|s| - 1] != '/' {
      LastSlashIsLast(s[..|s| - 1], i);
    }
  }

  ghost function Up(path: string): string
    requires LastSlash(path) > 0
  {
    path[..LastSlash(path) - 1]
  }

  lemma AncestorUp(path: string, a: string)
    requires Ancestor(a, path)
    ensures LastSlash(path) > 1 && Ancestor(Up(path), path) && (a == Up(path) || Ancestor(a, Up(path)))
  {
    LastSlashIsLast(path, |a|);
    var up := Up(path);
    assert path[..|up|] == up && up[..|a|] == path[..|a|];
  }

  lemma AncestorAbove(path: string, b: string)
    requires LastSlash(path) > 1 && Ancestor(Up(path), path) && Ancestor(b, Up(path))
    ensures Ancestor(b, path)
  {
    assert path[..|b|] == Up(path)[..|b|];
  }

  lemma ParentReached(w: World, sys: System, prefix: Option<string>, roots: seq<string>, path: string)
    requires w.deps(path) == EnqueuePath(sys, prefix, path) && w.deps(path).Some? && prefix != Some(path)
    requires Reached(w, roots, path) && LastSlash(path) > 1 && Wanted(w, Up(path))
    ensures Reached(w, roots, Up(path))
  {
    assert Up(path) in ParentItem(prefix, path);
    assert DependsOn(w, path, Up(path)) && path in {path};
    BecauseIsReached(w, roots, {path}, Up(path));
  }

  /** In the set computed by the worklist every directory above a member is a member, as long as it and what lies
      between is wanted, exists, and lies below the prefix. */
  lemma {:induction false} AncestorsReached(w: World, sys: System, prefix: Option<string>, roots: seq<string>, path: string, a: string)
    requires forall s :: w.deps(s) == EnqueuePath(sys, prefix, s)
    requires Reached(w, roots, path) && Ancestor(a, path) && prefix != Some(path) && w.deps(path).Some?
    requires forall b | Ancestor(b, path) && |b| >= |a| :: Wanted(w, b) && prefix != Some(b) && w.deps(b).Some?
    ensures Reached(w, roots, a)
    decreases |path|
  {
    AncestorUp(path, a);
    ParentReached(w, sys, prefix, roots, path);
    if a != Up(path) {
      forall b | Ancestor(b, Up(path)) ensures Ancestor(b, path) {
        AncestorAbove(path, b);
      }
      AncestorsReached(w, sys, prefix, roots, Up(path), a);
    }
  }
}

/** The recursive walk over module dependencies (utils/depinfo/kmod-depinfo.c:288-313, 410-437, 461-712). */
module Depinfo {
  import opened Basics

  datatype Node = Module(path: string) | Builtin(name: string)

  datatype Options = Options(deps: bool, modules: bool, builtins: bool)

  /** The modules and builtins a module's dependency fields resolve to, in order; None when its information cannot be
      read.  Builtins have no dependencies. */
  type Info = Node -> Option<seq<Node>>

  ghost function Children(info: Info, opts: Options, x: Node): seq<Node> {
    if x.Module? && info(x).Some? && opts.deps && opts.modules then info(x).value else []
  }

  ghost predicate Edge(info: Info, opts: Options, p: seq<Node>, i: nat) {
    0 < i < |p| ==> p[i] in Children(info, opts, p[i - 1])
  }

  ghost predicate Path(info: Info, opts: Options, p: seq<Node>) {
    |p| > 0 && forall i: nat :: Edge(info, opts, p, i)
  }

  ghost predicate Way(info: Info, opts: Options, x: Node, y: Node, p: seq<Node>) {
    Path(info, opts, p) && p[0] == x && p[|p| - 1] == y
  }

  ghost predicate Leads(info: Info, opts: Options, x: Node, y: Node) {
    exists p :: Way(info, opts, x, y, p)
  }

  ghost predicate Reachable(info: Info, opts: Options, roots: seq<Node>, y: Node) {
    exists r | r in roots :: Leads(info, opts, r, y)
  }

  /** Is printed when it is visited. */
  ghost predicate Shown(info: Info, opts: Options, x: Node) {
    match x
    case Module(_) => opts.modules && info(x).Some?
    case Builtin(_) => opts.builtins
  }

  ghost predicate Distinct(s: seq<Node>) {
    forall i, j | 0 <= i < j < |s| :: s[i] != s[j]
  }

  /** printed lists, once each, those of the new nodes that are shown. */
  ghost predicate Prints(info: Info, opts: Options, before: set<Node>, after: set<Node>, printed: seq<Node>) {
    && before <= after && Distinct(printed)
    && forall x :: x in printed <==> x in after && x !in before && Shown(info, opts, x)
  }

  /** Everything a new node depends on has been visited. */
  ghost predicate Closed(info: Info, opts: Options, before: set<Node>, after: set<Node>) {
    forall x, y | x in after && x !in before && y in Children(info, opts, x) :: y in after
  }

  /** The new nodes all come from one of these. */
  ghost predicate From(info: Info, opts: Options, before: set<Node>, after: set<Node>, starts: seq<Node>) {
    forall x {:trigger Reachable(info, opts, starts, x)} | x in after && x !in before :: Reachable(info, opts, starts, x)
  }

  lemma PrintsMore(info: Info, opts: Options, a: set<Node>, b: set<Node>, c: set<Node>, p: seq<Node>, q: seq<Node>)
    requires Prints(info, opts, a, b, p) && Prints(info, opts, b, c, q)
    ensures Prints(info, opts, a, c, p + q)
  {
    forall i, j | 0 <= i < j < |p + q| ensures (p + q)[i] != (p + q)[j] {
      if i < |p| <= j {
        assert p[i] in p && q[j - |p|] in q;
      }
    }
  }

  lemma WayFront(info: Info, opts: Options, x: Node, y: Node, z: Node, p: seq<Node>)
    requires Way(info, opts, y, z, p) && y in Children(info, opts, x)
    ensures Way(info, opts, x, z, [x] + p)
  {
    forall i: nat ensures Edge(info, opts, [x] + p, i) {
      if i > 1 {
        assert Edge(info, opts, p, i - 1);
      }
    }
  }

  lemma LeadsBack(info: Info, opts: Options, x: Node, y: Node, z: Node)
    requires y in Children(info, opts, x) && Leads(info, opts, y, z)
    ensures Leads(info, opts, x, z)
  {
    var p :| Way(info, opts, y, z, p);
    WayFront(info, opts, x, y, z, p);
  }

  lemma LeadsSelf(info: Info, opts: Options, x: Node)
    ensures Leads(info, opts, x, x)
  {
    var p := [x];
    assert Way(info, opts, x, x, p);
  }

  /** What a visit of the nodes in starts does. */
  ghost predicate Visited(info: Info, opts: Options, starts: seq<Node>, before: set<Node>, after: set<Node>, printed: seq<Node>) {
    && (forall x | x in starts :: x in after)
    && Prints(info, opts, before, after, printed) && Closed(info, opts, before, after) && From(info, opts, before, after, starts)
  }

  lemma VisitedNothing(info: Info, opts: Options, tracked: set<Node>)
    ensures Visited(info, opts, [], tracked, tracked, [])
  {
  }

  lemma VisitedSeen(info: Info, opts: Options, x: Node, tracked: set<Node>)
    requires x in tracked
    ensures Visited(info, opts, [x], tracked, tracked, [])
  {
  }

  lemma VisitedMore(info: Info, opts: Options, starts: seq<Node>, x: Node, a: set<Node>, b: set<Node>, c: set<Node>, p: seq<Node>, q: seq<Node>)
    requires Visited(info, opts, starts, a, b, p) && Visited(info, opts, [x], b, c, q)
    ensures Visited(info, opts, starts + [x], a, c, p + q)
  {
    PrintsMore(info, opts, a, b, c, p, q);
    forall y | y in c && y !in a ensures Reachable(info, opts, starts + [x], y) {
      if y in b {
        assert Reachable(info, opts, starts, y);
        var r :| r in starts && Leads(info, opts, r, y);
        assert r in starts + [x];
      } else {
        assert Reachable(info, opts, [x], y);
        assert x in starts + [x];
      }
    }
    assert x in [x];
  }

  /** A node is marked, printed if it is shown, and everything it depends on is visited. */
  lemma VisitedNode(info: Info, opts: Options, x: Node, before: set<Node>, after: set<Node>, printed: seq<Node>)
    requires x !in before && Visited(info, opts, Children(info, opts, x), before + {x}, after, printed)
    ensures Visited(info, opts, [x], before, after, (if Shown(info, opts, x) then [x] else []) + printed)
  {
    var first := if Shown(info, opts, x) then [x] else [];
    PrintsOne(info, opts, before, x);
    PrintsMore(info, opts, before, before + {x}, after, first, printed);
    FromNode(info, opts, x, before, after);
  }

  lemma PrintsOne(info: Info, opts: Options, before: set<Node>, x: Node)
    requires x !in before
    ensures Prints(info, opts, before, before + {x}, if Shown(info, opts, x) then [x] else [])
  {
  }

  lemma FromNode(info: Info, opts: Options, x: Node, before: set<Node>, after: set<Node>)
    requires From(info, opts, before + {x}, after, Children(info, opts, x))
    ensures From(info, opts, before, after, [x])
  {
    LeadsSelf(info, opts, x);
    assert x in [x];
    forall y | y in after && y !in before ensures Reachable(info, opts, [x], y) {
      if y != x {
        assert Reachable(info, opts, Children(info, opts, x), y);
        var r :| r in Children(info, opts, x) && Leads(info, opts, r, y);
        LeadsBack(info, opts, x, r, y);
      }
    }
  }

  // ----- the walk -----

  class Walk {
    var tracked: set<Node>
    var showTree: nat
    var output: seq<(Node, nat)>

    constructor (tree: bool)
      ensures tracked == {} && output == [] && showTree == if tree then 1 else 0
    {
      tracked, output, showTree := {}, [], if tree then 1 else 0;
    }

    method Show(x: Node)
      modifies this`output
      ensures output == old(output) + [(x, showTree)]
    {
      output := output + [(x, showTree)];
    }
  }

  ghost function Names(output: seq<(Node, nat)>): seq<Node> {
    seq(|output|, i requires 0 <= i < |output| => output[i].0)
  }

  /** Only the last lines of the depth handling: without module output the depth is lowered although it was never raised. */
  function DepthAfter(opts: Options, x: Node, depth: nat): nat {
    if x.Module? && !opts.modules && depth > 1 then depth - 1 else depth
  }

  lemma NamesAppend(output: seq<(Node, nat)>, x: Node, depth: nat)
    ensures Names(output + [(x, depth)]) == Names(output) + [x]
  {
  }

  /** A finite set of nodes that dependencies do not leave. */
  ghost predicate Within(info: Info, opts: Options, universe: set<Node>) {
    forall x, y | x in universe && y in Children(info, opts, x) :: y in universe
  }

  ghost predicate Readable(info: Info, before: set<Node>, after: set<Node>) {
    forall x | x in after && x !in before && x.Module? :: info(x).Some?
  }

  lemma Smaller(universe: set<Node>, tracked: set<Node>, x: Node, after: set<Node>)
    requires x in universe && x !in tracked && tracked + {x} <= after
    ensures |universe - after| < |universe - tracked|
  {
    var rest, less := universe - tracked, universe - after;
    assert x in rest && x !in less && less <= rest - {x};
    SubsetSize(less, rest - {x});
  }

  /** process_builtin (lines 410-437) for a builtin that is known. */
  method VisitBuiltin(w: Walk, x: Node, info: Info, opts: Options) returns (ghost printed: seq<Node>)
    requires x.Builtin?
    modifies w
    ensures Visited(info, opts, [x], old(w.tracked), w.tracked, printed) && Readable(info, old(w.tracked), w.tracked)
    ensures Names(w.output) == old(Names(w.output)) + printed && w.showTree == old(w.showTree)
  {
    if x in w.tracked {
      VisitedSeen(info, opts, x, w.tracked);
      return [];
    }
    w.tracked := w.tracked + {x};
    VisitedNothing(info, opts, w.tracked);
    VisitedNode(info, opts, x, old(w.tracked), w.tracked, []);
    printed := (if Shown(info, opts, x) then [x] else []) + [];
    if opts.builtins {
      NamesAppend(w.output, x, w.showTree);
      w.Show(x);
      if w.showTree != 0 {
        w.showTree := w.showTree + 1;
      }
    }
    if opts.builtins && w.showTree > 1 {
      w.showTree := w.showTree - 1;
    }
  }

  /** depinfo (lines 651-712) and, for builtins, process_builtin. */
  method Visit(w: Walk, x: Node, info: Info, opts: Options, ghost universe: set<Node>) returns (ok: bool, ghost printed: seq<Node>)
    requires x in universe && Within(info, opts, universe)
    modifies w
    ensures Visited(info, opts, [x], old(w.tracked), w.tracked, printed)
    ensures ok <==> Readable(info, old(w.tracked), w.tracked)
    ensures Names(w.output) == old(Names(w.output)) + printed
    ensures w.showTree == if x in old(w.tracked) || info(x).None? then old(w.showTree) else DepthAfter(opts, x, old(w.showTree))
    decreases |universe - w.tracked|, 1
  {
    if x.Builtin? {
      printed := VisitBuiltin(w, x, info, opts);
      ok := true;
    } else if x in w.tracked {
      VisitedSeen(info, opts, x, w.tracked);
      ok, printed := true, [];
    } else if info(x).None? {
      ghost var before := w.tracked;
      w.tracked := w.tracked + {x};
      VisitedNothing(info, opts, w.tracked);
      VisitedNode(info, opts, x, before, w.tracked, []);
      ok, printed := false, [];
    } else {
      ok, printed := VisitModule(w, x, info, opts, universe);
    }
  }

  /** Printing a module (lines 674-679). */
  method Announce(w: Walk, x: Node, opts: Options)
    modifies w`output, w`showTree
    ensures Names(w.output) == old(Names(w.output)) + if opts.modules then [x] else []
    ensures w.showTree == if opts.modules && old(w.showTree) > 0 then old(w.showTree) + 1 else old(w.showTree)
  {
    if opts.modules {
      NamesAppend(w.output, x, w.showTree);
      w.Show(x);
      if w.showTree != 0 {
        w.showTree := w.showTree + 1;
      }
    }
  }

  lemma Regroup(a: seq<Node>, b: seq<Node>, c: seq<Node>)
    ensures a + b + c == a + (b + c)
  {
  }

  /** depinfo for a module that is not tracked yet and whose information can be read (lines 674-711). */
  method VisitModule(w: Walk, x: Node, info: Info, opts: Options, ghost universe: set<Node>)
    returns (ok: bool, ghost printed: seq<Node>)
    requires x in universe && Within(info, opts, universe) && x.Module? && x !in w.tracked && info(x).Some?
    modifies w
    ensures Visited(info, opts, [x], old(w.tracked), w.tracked, printed)
    ensures ok <==> Readable(info, old(w.tracked), w.tracked)
    ensures Names(w.output) == old(Names(w.output)) + printed
    ensures w.showTree == DepthAfter(opts, x, old(w.showTree))
    decreases |universe - w.tracked|, 0
  {
    ghost var before, first, names := w.tracked, if opts.modules then [x] else [], Names(w.output);
    w.tracked := w.tracked + {x};
    Smaller(universe, before, x, w.tracked);
    Announce(w, x, opts);
    ok, printed := true, [];
    if opts.deps && opts.modules {
      ok, printed := VisitAll(w, info(x).value, info, opts, universe);
    } else {
      VisitedNothing(info, opts, w.tracked);
    }
    VisitedNode(info, opts, x, before, w.tracked, printed);
    Regroup(names, first, printed);
    printed := first + printed;
    if w.showTree > 1 {
      w.showTree := w.showTree - 1;
    }
  }

  /** The loops over a module's dependencies. */
  method VisitAll(w: Walk, xs: seq<Node>, info: Info, opts: Options, ghost universe: set<Node>) returns (ok: bool, ghost printed: seq<Node>)
    requires (forall x | x in xs :: x in universe) && Within(info, opts, universe) && opts.modules
    modifies w
    ensures Visited(info, opts, xs, old(w.tracked), w.tracked, printed)
    ensures ok <==> Readable(info, old(w.tracked), w.tracked)
    ensures Names(w.output) == old(Names(w.output)) + printed && w.showTree == old(w.showTree)
    decreases |universe - w.tracked|, 2
  {
    ok, printed := true, [];
    var i := 0;
    VisitedNothing(info, opts, w.tracked);
    while i < |xs|
      invariant i <= |xs| && Visited(info, opts, xs[..i], old(w.tracked), w.tracked, printed)
      invariant (ok <==> Readable(info, old(w.tracked), w.tracked))
      invariant Names(w.output) == old(Names(w.output)) + printed && w.showTree == old(w.showTree)
    {
      SubsetSize(universe - w.tracked, universe - old(w.tracked));
      ghost var before, sofar := w.tracked, printed;
      var good;
      good, printed := Visit(w, xs[i], info, opts, universe);
      VisitedMore(info, opts, xs[..i], xs[i], old(w.tracked), before, w.tracked, sofar, printed);
      Regroup(old(Names(w.output)), sofar, printed);
      assert xs[..i + 1] == xs[..i] + [xs[i]];
      printed := sofar + printed;
      ok := ok && good;
      i := i + 1;
    }
    assert xs[..i] == xs;
  }

  // ----- the whole walk -----

  lemma {:induction false} WayTracked(info: Info, opts: Options, tracked: set<Node>, p: seq<Node>, n: nat)
    requires Path(info, opts, p) && p[0] in tracked && Closed(info, opts, {}, tracked) && n < |p|
    ensures p[n] in tracked
    decreases n
  {
    if n > 0 {
      WayTracked(info, opts, tracked, p, n - 1);
      assert Edge(info, opts, p, n);
    }
  }

  /** A walk from nothing has visited exactly what the roots lead to, and printed each of them that is shown once. */
  lemma VisitedIsReachable(info: Info, opts: Options, roots: seq<Node>, tracked: set<Node>, printed: seq<Node>)
    requires Visited(info, opts, roots, {}, tracked, printed)
    ensures forall x :: x in tracked <==> Reachable(info, opts, roots, x)
    ensures Distinct(printed) && forall x :: x in printed <==> Reachable(info, opts, roots, x) && Shown(info, opts, x)
  {
    forall x ensures x in tracked <==> Reachable(info, opts, roots, x) {
      if Reachable(info, opts, roots, x) {
        var r :| r in roots && Leads(info, opts, r, x);
        var p :| Way(info, opts, r, x, p);
        WayTracked(info, opts, tracked, p, |p| - 1);
      }
    }
  }

  /** The set holds whatever a readable module in it depends on, if dependencies are followed. */
  ghost predicate Holds(info: Info, opts: Options, s: iset<Node>) {
    opts.deps ==> forall x, y | x in s && x.Module? && info(x).Some? && y in info(x).value :: y in s
  }

  lemma ReachableHolds(info: Info, opts: Options, roots: seq<Node>)
    requires opts.modules
    ensures Holds(info, opts, iset x | Reachable(info, opts, roots, x))
  {
    forall x, y | opts.deps && Reachable(info, opts, roots, x) && x.Module? && info(x).Some? && y in info(x).value
      ensures Reachable(info, opts, roots, y)
    {
      var r :| r in roots && Leads(info, opts, r, x);
      LeadsOn(info, opts, r, x, y);
    }
  }

  lemma ReachableInside(info: Info, opts: Options, roots: seq<Node>, s: iset<Node>, x: Node)
    requires (forall r | r in roots :: r in s) && Holds(info, opts, s) && Reachable(info, opts, roots, x)
    ensures x in s
  {
    var r :| r in roots && Leads(info, opts, r, x);
    var p :| Way(info, opts, r, x, p);
    WayInside(info, opts, s, p, |p| - 1);
  }

  /** What is reached is the least set that holds the roots and, if dependencies are followed, whatever a readable
      module in it depends on. */
  lemma ReachableIsLeast(info: Info, opts: Options, roots: seq<Node>, s: iset<Node>)
    requires opts.modules && (forall r | r in roots :: r in s) && Holds(info, opts, s)
    ensures var reached := iset x | Reachable(info, opts, roots, x);
            (forall r | r in roots :: r in reached) && Holds(info, opts, reached) && reached <= s
  {
    forall r | r in roots ensures Reachable(info, opts, roots, r) {
      LeadsSelf(info, opts, r);
    }
    ReachableHolds(info, opts, roots);
    forall x | Reachable(info, opts, roots, x) ensures x in s {
      ReachableInside(info, opts, roots, s, x);
    }
  }

  lemma LeadsOn(info: Info, opts: Options, x: Node, y: Node, z: Node)
    requires Leads(info, opts, x, y) && z in Children(info, opts, y)
    ensures Leads(info, opts, x, z)
  {
    var p :| Way(info, opts, x, y, p);
    var q := p + [z];
    forall i: nat ensures Edge(info, opts, q, i) {
      if 0 < i < |p| {
        assert Edge(info, opts, p, i);
      }
    }
    assert Way(info, opts, x, z, q);
  }

  lemma {:induction false} WayInside(info: Info, opts: Options, s: iset<Node>, p: seq<Node>, n: nat)
    requires Path(info, opts, p) && p[0] in s && n < |p| && Holds(info, opts, s)
    ensures p[n] in s
    decreases n
  {
    if n > 0 {
      WayInside(info, opts, s, p, n - 1);
      assert Edge(info, opts, p, n);
    }
  }

  /** The walk of main over its arguments, with modules and dependencies shown: it ends on every finite graph, cyclic or
      not; it prints every module and builtin the roots lead to that is to be shown exactly once and nothing else; it
      fails if and only if some module's information cannot be read; and the depth is what it was. */
  method WalkAll(w: Walk, roots: seq<Node>, info: Info, opts: Options, ghost universe: set<Node>) returns (ok: bool)
    requires w.tracked == {} && w.output == [] && opts.modules && Within(info, opts, universe) && forall x | x in roots :: x in universe
    modifies w
    ensures Distinct(Names(w.output))
    ensures forall x :: x in Names(w.output) <==> Reachable(info, opts, roots, x) && if x.Module? then info(x).Some? else opts.builtins
    ensures ok <==> forall x | Reachable(info, opts, roots, x) && x.Module? :: info(x).Some?
    ensures w.showTree == old(w.showTree)
  {
    ghost var printed;
    ok, printed := VisitAll(w, roots, info, opts, universe);
    VisitedIsReachable(info, opts, roots, w.tracked, printed);
    assert Names([]) + printed == printed;
  }
}

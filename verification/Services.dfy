/** Ordering the services of one run level: tools/sort-services. */
module Services {
  import opened Basics
  import opened Kahn

  /** The parts of an LSB header that matter at one level; active says that the level is among the service's levels. */
  datatype Service = Service(active: bool, offers: seq<string>, needs: seq<string>, wishes: seq<string>, before: seq<string>)

  datatype Kind = Start | Stop

  predicate Provides(services: seq<Service>, i: nat, name: string) {
    i < |services| && services[i].active && name in services[i].offers
  }

  /** The first active provider of a name at or after an index. */
  function FirstProvider(services: seq<Service>, name: string, from: nat): (r: Option<nat>)
    ensures r.Some? ==> from <= r.value && Provides(services, r.value, name)
    ensures forall j | from <= j && (r.Some? ==> j < r.value) :: !Provides(services, j, name)
    decreases |services| - from
  {
    if from >= |services| then None
    else if Provides(services, from, name) then Some(from)
    else FirstProvider(services, name, from + 1)
  }

  /** find_provide (lines 184-203). */
  method FindProvide(services: seq<Service>, name: string, from: nat) returns (r: Option<nat>)
    ensures r == FirstProvider(services, name, from)
  {
    var i := from;
    while i < |services|
      invariant from <= i && FirstProvider(services, name, from) == FirstProvider(services, name, i)
    {
      if services[i].active && name in services[i].offers {
        return Some(i);
      }
      i := i + 1;
    }
    return None;
  }

  // ----- what create_deps accepts -----

  ghost predicate ProvidedOnce(services: seq<Service>, i: nat)
    requires i < |services|
  {
    forall n | n in services[i].offers :: forall j | j != i :: !Provides(services, j, n)
  }

  /** Every name is provided when it must be, and never by the service itself. */
  ghost predicate Acceptable(services: seq<Service>, i: nat, names: seq<string>, must: bool) {
    forall n | n in names ::
      var p := FirstProvider(services, n, 0);
      (must ==> p.Some?) && p != Some(i)
  }

  ghost predicate Accepted(services: seq<Service>, i: nat)
    requires i < |services|
  {
    services[i].active ==>
      && ProvidedOnce(services, i)
      && Acceptable(services, i, services[i].needs, true)
      && Acceptable(services, i, services[i].wishes, false)
      && Acceptable(services, i, services[i].before, false)
  }

  /** No name has two providers, every required name has one, and no service names itself. */
  ghost predicate Consistent(services: seq<Service>) {
    && (forall i, j, n | Provides(services, i, n) && Provides(services, j, n) :: i == j)
    && (forall i, n | 0 <= i < |services| && services[i].active && n in services[i].needs :: exists d :: Provides(services, d, n))
    && forall i, n | 0 <= i < |services| && services[i].active && n in services[i].needs + services[i].wishes + services[i].before ::
         n !in services[i].offers
  }

  /** The checks of names provided more than once (lines 222-238).  The "really?" exit of line 226 cannot be taken. */
  method CheckProvides(services: seq<Service>, i: nat) returns (ok: bool)
    requires i < |services| && services[i].active
    ensures ok <==> ProvidedOnce(services, i)
  {
    var names, k := services[i].offers, 0;
    while k < |names|
      invariant k <= |names|
      invariant forall n | n in names[..k] :: forall j | j != i :: !Provides(services, j, n)
    {
      var n := names[k];
      var first := FindProvide(services, n, 0);
      assert Provides(services, i, n) && first.Some?;
      var second := FindProvide(services, n, first.value + 1);
      if second.Some? {
        assert Provides(services, first.value, n) && Provides(services, second.value, n);
        return false;
      }
      assert names[..k + 1] == names[..k] + [n];
      k := k + 1;
    }
    assert names[..k] == names;
    return true;
  }

  // ----- the dependencies collected -----

  ghost predicate Resolves(services: seq<Service>, names: seq<string>, d: nat) {
    exists n | n in names :: FirstProvider(services, n, 0) == Some(d)
  }

  ghost predicate SameExcept(a: seq<seq<nat>>, b: seq<seq<nat>>, i: nat) {
    |a| == |b| && forall j | 0 <= j < |a| && j != i :: a[j] == b[j]
  }

  /** Required and wished-for services become dependencies of i (lines 242-259). */
  method AddDeps(services: seq<Service>, i: nat, names: seq<string>, must: bool, deps: seq<seq<nat>>)
    returns (ok: bool, deps': seq<seq<nat>>)
    requires i < |services| == |deps|
    ensures ok <==> Acceptable(services, i, names, must)
    ensures ok ==> SameExcept(deps, deps', i) && forall d :: d in deps'[i] <==> d in deps[i] || Resolves(services, names, d)
  {
    deps' := deps;
    var k := 0;
    while k < |names|
      invariant k <= |names| && SameExcept(deps, deps', i)
      invariant Acceptable(services, i, names[..k], must)
      invariant forall d :: d in deps'[i] <==> d in deps[i] || Resolves(services, names[..k], d)
    {
      var n := names[k];
      assert names[..k + 1] == names[..k] + [n];
      var p := FindProvide(services, n, 0);
      if p.None? && must {
        return false, deps;
      }
      if p == Some(i) {
        return false, deps;
      }
      assert forall d: nat :: Resolves(services, names[..k + 1], d) <==> Resolves(services, names[..k], d) || p == Some(d);
      if p.Some? {
        deps' := deps'[i := deps'[i] + [p.value]];
      }
      k := k + 1;
    }
    assert names[..k] == names;
    return true, deps';
  }

  /** i becomes a dependency of the services it is to come before (lines 263-270). */
  method AddBefore(services: seq<Service>, i: nat, names: seq<string>, deps: seq<seq<nat>>)
    returns (ok: bool, deps': seq<seq<nat>>)
    requires i < |services| == |deps|
    ensures ok <==> Acceptable(services, i, names, false)
    ensures ok ==> |deps'| == |deps|
    ensures ok ==> forall j, d | 0 <= j < |deps| :: d in deps'[j] <==> d in deps[j] || (d == i && Resolves(services, names, j))
  {
    deps' := deps;
    var k := 0;
    while k < |names|
      invariant k <= |names| && |deps'| == |deps|
      invariant Acceptable(services, i, names[..k], false)
      invariant forall j, d | 0 <= j < |deps| :: d in deps'[j] <==> d in deps[j] || (d == i && Resolves(services, names[..k], j))
    {
      var n := names[k];
      assert names[..k + 1] == names[..k] + [n];
      var p := FindProvide(services, n, 0);
      if p == Some(i) {
        return false, deps;
      }
      assert forall d: nat :: Resolves(services, names[..k + 1], d) <==> Resolves(services, names[..k], d) || p == Some(d);
      if p.Some? {
        deps' := deps'[p.value := deps'[p.value] + [i]];
      }
      k := k + 1;
    }
    assert names[..k] == names;
    return true, deps';
  }

  /** What the turn for i adds: that j depends on d. */
  ghost predicate Contributes(services: seq<Service>, i: nat, j: nat, d: nat)
    requires i < |services|
  {
    && services[i].active
    && ((j == i && Resolves(services, services[i].needs + services[i].wishes, d)) || (d == i && Resolves(services, services[i].before, j)))
  }

  ghost predicate Collected(services: seq<Service>, k: nat, deps: seq<seq<nat>>)
    requires k <= |services|
  {
    && |deps| == |services|
    && forall j, d: nat | 0 <= j < |deps| :: d in deps[j] <==> exists i :: 0 <= i < k && Contributes(services, i, j, d)
  }

  lemma ResolvesBoth(services: seq<Service>, a: seq<string>, b: seq<string>, d: nat)
    ensures Resolves(services, a + b, d) <==> Resolves(services, a, d) || Resolves(services, b, d)
  {
  }

  /** The turn of the main loop of create_deps for one active service (lines 217-270). */
  method Collect(services: seq<Service>, i: nat, deps: seq<seq<nat>>) returns (ok: bool, deps': seq<seq<nat>>)
    requires i < |services| && services[i].active && Collected(services, i, deps)
    ensures ok <==> Accepted(services, i)
    ensures ok ==> Collected(services, i + 1, deps')
  {
    deps' := deps;
    ok := CheckProvides(services, i);
    if !ok {
      return;
    }
    ok, deps' := AddDeps(services, i, services[i].needs, true, deps');
    if !ok {
      return;
    }
    ok, deps' := AddDeps(services, i, services[i].wishes, false, deps');
    if !ok {
      return;
    }
    ok, deps' := AddBefore(services, i, services[i].before, deps');
    if ok {
      forall j, d: nat | 0 <= j < |deps'|
        ensures d in deps'[j] <==> exists i' :: 0 <= i' < i + 1 && Contributes(services, i', j, d) {
        ResolvesBoth(services, services[i].needs, services[i].wishes, d);
        assert d in deps'[j] <==> d in deps[j] || Contributes(services, i, j, d);
      }
    }
  }

  /** create_deps (lines 205-272). */
  method CreateDeps(services: seq<Service>) returns (ok: bool, deps: seq<seq<nat>>)
    ensures ok <==> forall i | 0 <= i < |services| :: Accepted(services, i)
    ensures ok ==> Collected(services, |services|, deps)
  {
    deps := seq(|services|, _ => []);
    var i := 0;
    while i < |services|
      invariant i <= |services| && Collected(services, i, deps)
      invariant forall j | 0 <= j < i :: Accepted(services, j)
    {
      if services[i].active {
        var more;
        ok, more := Collect(services, i, deps);
        if !ok {
          return;
        }
        deps := more;
      }
      i := i + 1;
    }
    ok := true;
  }

  // ----- what the dependencies mean -----

  /** j must come after d in the level's order of starting. */
  ghost predicate DependsOn(services: seq<Service>, j: nat, d: nat) {
    && j < |services| && d < |services| && services[j].active && services[d].active
    && ((exists n | n in services[j].needs + services[j].wishes :: n in services[d].offers)
        || exists n | n in services[d].before :: n in services[j].offers)
  }

  lemma AcceptedIsConsistent(services: seq<Service>)
    ensures Consistent(services) <==> forall i | 0 <= i < |services| :: Accepted(services, i)
  {
    if Consistent(services) {
      forall i | 0 <= i < |services| ensures Accepted(services, i) {
        ConsistentIsAccepted(services, i);
      }
    } else if forall i | 0 <= i < |services| :: Accepted(services, i) {
      AllAccepted(services);
    }
  }

  lemma ConsistentIsAccepted(services: seq<Service>, i: nat)
    requires Consistent(services) && i < |services|
    ensures Accepted(services, i)
  {
    if services[i].active {
      var all := services[i].needs + services[i].wishes + services[i].before;
      forall n | n in all ensures FirstProvider(services, n, 0) != Some(i) {
        assert n !in services[i].offers;
      }
      forall n | n in services[i].needs ensures FirstProvider(services, n, 0).Some? {
        assert n in all;
        var d :| Provides(services, d, n);
      }
      forall n | n in services[i].offers ensures forall j | j != i :: !Provides(services, j, n) {
        assert Provides(services, i, n);
      }
    }
  }

  lemma AllAccepted(services: seq<Service>)
    requires forall i | 0 <= i < |services| :: Accepted(services, i)
    ensures Consistent(services)
  {
    forall i, j, n | Provides(services, i, n) && Provides(services, j, n) ensures i == j {
      assert Accepted(services, i);
    }
    forall i, n | 0 <= i < |services| && services[i].active && n in services[i].needs ensures exists d :: Provides(services, d, n) {
      assert Accepted(services, i);
      assert Provides(services, FirstProvider(services, n, 0).value, n);
    }
    forall i, n | 0 <= i < |services| && services[i].active && n in services[i].needs + services[i].wishes + services[i].before
      ensures n !in services[i].offers {
      assert Accepted(services, i);
      if n in services[i].offers {
        assert Provides(services, i, n);
        OnlyProvider(services, i, n);
      }
    }
  }

  lemma OnlyProvider(services: seq<Service>, d: nat, n: string)
    requires (forall i | 0 <= i < |services| :: Accepted(services, i)) && Provides(services, d, n)
    ensures FirstProvider(services, n, 0) == Some(d)
  {
    assert Accepted(services, d);
  }

  /** The lists collected are exactly the dependencies the headers declare. */
  lemma CollectedIsDependsOn(services: seq<Service>, deps: seq<seq<nat>>, j: nat, d: nat)
    requires (forall i | 0 <= i < |services| :: Accepted(services, i)) && Collected(services, |services|, deps) && j < |services|
    ensures d in deps[j] && services[j].active && d < |services| && services[d].active <==> DependsOn(services, j, d)
  {
    if d < |services| && services[j].active && services[d].active {
      ResolvesIsOffered(services, services[j].needs + services[j].wishes, d);
      ResolvesIsOffered(services, services[d].before, j);
      assert DependsOn(services, j, d) ==> Contributes(services, j, j, d) || Contributes(services, d, j, d);
    }
  }

  lemma ResolvesIsOffered(services: seq<Service>, names: seq<string>, d: nat)
    requires (forall i | 0 <= i < |services| :: Accepted(services, i)) && d < |services| && services[d].active
    ensures Resolves(services, names, d) <==> exists n | n in names :: n in services[d].offers
  {
    forall n | n in names && n in services[d].offers ensures FirstProvider(services, n, 0) == Some(d) {
      OnlyProvider(services, d, n);
    }
  }

  // ----- the graph -----

  function ActiveUpTo(services: seq<Service>, n: nat): (active: seq<nat>)
    requires n <= |services|
    ensures Distinct(active) && forall i :: i in active <==> 0 <= i < n && services[i].active
  {
    if n == 0 then [] else if services[n - 1].active then ActiveUpTo(services, n - 1) + [n - 1] else ActiveUpTo(services, n - 1)
  }

  /** u must be emitted before v because of the dependencies of i (lines 301-307). */
  predicate NewEdge(kind: Kind, i: nat, deps: seq<nat>, u: nat, v: nat) {
    if kind.Start? then v == i && u in deps else u == i && v in deps
  }

  ghost predicate HasEdge(g: Graph, u: nat, v: nat) {
    u in g && v in g && v in g[u]
  }

  /** g with the edge from u to v. */
  function WithEdge(g: Graph, u: nat, v: nat): Graph
    requires u in g
  {
    g[u := g[u] + [v]]
  }

  lemma RemainingAdded(g: Graph, u: nat, v: nat, x: nat)
    requires u in g && v !in g[u]
    ensures |Remaining(WithEdge(g, u, v), x, [])| == |Remaining(g, x, [])| + if x == v then 1 else 0
  {
    var before, after := Remaining(g, x, []), Remaining(WithEdge(g, u, v), x, []);
    forall y ensures y in after <==> y in before || (y == u && x == v) {
      EdgeAdded(g, u, v, y, x);
    }
    if x == v {
      assert after == before + {u} && u !in before;
    } else {
      assert after == before;
    }
  }

  lemma EdgeAdded(g: Graph, u: nat, v: nat, y: nat, x: nat)
    requires u in g
    ensures y in Remaining(WithEdge(g, u, v), x, []) <==> y in Remaining(g, x, []) || (y == u && x == v)
  {
  }

  lemma CountsAdded(g: Graph, inDegree: map<nat, nat>, u: nat, v: nat)
    requires Counts(g, [], inDegree) && u in g && v in g && v !in g[u]
    ensures Counts(WithEdge(g, u, v), [], inDegree[v := inDegree[v] + 1])
  {
    var g', inDegree' := WithEdge(g, u, v), inDegree[v := inDegree[v] + 1];
    forall x | x in g' ensures inDegree'[x] == |Remaining(g', x, [])| {
      RemainingAdded(g, u, v, x);
    }
  }

  lemma WellFormedAdded(g: Graph, u: nat, v: nat)
    requires WellFormed(g) && u in g && v in g && v !in g[u]
    ensures WellFormed(WithEdge(g, u, v))
    ensures forall x, y :: HasEdge(WithEdge(g, u, v), x, y) <==> HasEdge(g, x, y) || (x == u && y == v)
  {
  }

  /** g' has the edges of g and those of the first dependencies of i. */
  ghost predicate Extended(kind: Kind, i: nat, deps: seq<nat>, g: Graph, g': Graph) {
    && g'.Keys == g.Keys
    && forall x, y :: HasEdge(g', x, y) <==> HasEdge(g, x, y) || (x in g && y in g && NewEdge(kind, i, deps, x, y))
  }

  lemma ExtendedStep(kind: Kind, i: nat, deps: seq<nat>, d: nat, g: Graph, g': Graph, u: nat, v: nat)
    requires WellFormed(g') && Extended(kind, i, deps, g, g') && i in g && d in g
    requires u == (if kind.Start? then d else i) && v == (if kind.Start? then i else d)
    ensures HasEdge(g', u, v) ==> Extended(kind, i, deps + [d], g, g')
    ensures !HasEdge(g', u, v) ==> Extended(kind, i, deps + [d], g, WithEdge(g', u, v))
  {
    assert forall x, y :: NewEdge(kind, i, deps + [d], x, y) <==> NewEdge(kind, i, deps, x, y) || (x == u && y == v);
    if !HasEdge(g', u, v) {
      WellFormedAdded(g', u, v);
    }
  }

  lemma SkippedStep(kind: Kind, i: nat, deps: seq<nat>, d: nat, g: Graph, g': Graph)
    requires Extended(kind, i, deps, g, g') && d !in g
    ensures Extended(kind, i, deps + [d], g, g')
  {
  }

  ghost predicate Fresh(kind: Kind, i: nat, g: Graph) {
    forall u, v | HasEdge(g, u, v) :: if kind.Start? then v != i else u != i
  }

  ghost predicate Seen(g: Graph, done: seq<nat>, seen: set<nat>) {
    forall d :: d in seen <==> d in done && d in g
  }

  lemma SeenHasEdge(kind: Kind, i: nat, done: seq<nat>, d: nat, g: Graph, g': Graph, seen: set<nat>, u: nat, v: nat)
    requires Fresh(kind, i, g) && Extended(kind, i, done, g, g') && Seen(g, done, seen) && i in g && d in g
    requires u == (if kind.Start? then d else i) && v == (if kind.Start? then i else d)
    ensures HasEdge(g', u, v) <==> d in seen
  {
  }

  /** One dependency (lines 297-310). */
  method AddEdge(kind: Kind, i: nat, ghost done: seq<nat>, d: nat, ghost g0: Graph, g: Graph, inDegree: map<nat, nat>, seen: set<nat>)
    returns (g': Graph, inDegree': map<nat, nat>, seen': set<nat>)
    requires WellFormed(g) && Counts(g, [], inDegree) && i in g0
    requires Fresh(kind, i, g0) && Extended(kind, i, done, g0, g) && Seen(g0, done, seen)
    ensures WellFormed(g') && Counts(g', [], inDegree')
    ensures Extended(kind, i, done + [d], g0, g') && Seen(g0, done + [d], seen')
  {
    g', inDegree', seen' := g, inDegree, seen;
    if d !in inDegree {
      SkippedStep(kind, i, done, d, g0, g);
      return;
    }
    var u, v := if kind.Start? then d else i, if kind.Start? then i else d;
    SeenHasEdge(kind, i, done, d, g0, g, seen, u, v);
    ExtendedStep(kind, i, done, d, g0, g, u, v);
    if d !in seen {
      seen' := seen + {d};
      WellFormedAdded(g, u, v);
      CountsAdded(g, inDegree, u, v);
      inDegree' := inDegree[v := inDegree[v] + 1];
      g' := WithEdge(g, u, v);
    }
  }

  /** The loop over the dependencies of one service (lines 295-311). */
  method AddEdges(kind: Kind, i: nat, deps: seq<nat>, g: Graph, inDegree: map<nat, nat>)
    returns (g': Graph, inDegree': map<nat, nat>)
    requires WellFormed(g) && Counts(g, [], inDegree) && i in g && Fresh(kind, i, g)
    ensures WellFormed(g') && Counts(g', [], inDegree') && Extended(kind, i, deps, g, g')
  {
    g', inDegree' := g, inDegree;
    var seen: set<nat>, k := {}, 0;
    Whole(deps);
    while k < |deps|
      invariant k <= |deps| && WellFormed(g') && Counts(g', [], inDegree')
      invariant Extended(kind, i, deps[..k], g, g') && Seen(g, deps[..k], seen)
    {
      Prefix(deps, k);
      g', inDegree', seen := AddEdge(kind, i, deps[..k], deps[k], g, g', inDegree', seen);
      k := k + 1;
    }
    Whole(deps);
  }

  lemma Prefix(s: seq<nat>, k: nat)
    requires k < |s|
    ensures s[..k + 1] == s[..k] + [s[k]]
  {
  }

  lemma Whole(s: seq<nat>)
    ensures s[..|s|] == s && s[..0] == []
  {
  }

  ghost predicate EdgesOf(kind: Kind, done: seq<nat>, deps: seq<seq<nat>>, g: Graph) {
    forall u, v | u in g && v in g ::
      HasEdge(g, u, v) <==> if kind.Start? then v in done && v < |deps| && u in deps[v] else u in done && u < |deps| && v in deps[u]
  }

  lemma EdgesStep(kind: Kind, done: seq<nat>, i: nat, deps: seq<seq<nat>>, g: Graph, g': Graph)
    requires EdgesOf(kind, done, deps, g) && i < |deps| && i !in done && Extended(kind, i, deps[i], g, g')
    ensures EdgesOf(kind, done + [i], deps, g')
  {
  }

  /** The loops that build the graph (lines 284-312). */
  method BuildGraph(services: seq<Service>, kind: Kind, deps: seq<seq<nat>>)
    returns (active: seq<nat>, g: Graph, inDegree: map<nat, nat>, tier: map<nat, nat>)
    requires |deps| == |services|
    ensures active == ActiveUpTo(services, |services|) && Elements(active) == g.Keys == tier.Keys
    ensures WellFormed(g) && Counts(g, [], inDegree) && EdgesOf(kind, active, deps, g)
    ensures forall v | v in tier :: tier[v] == 0
  {
    active, g, inDegree, tier := Nodes(services);
    var k := 0;
    while k < |active|
      invariant k <= |active| && g.Keys == Elements(active)
      invariant WellFormed(g) && Counts(g, [], inDegree) && EdgesOf(kind, active[..k], deps, g)
    {
      var i := active[k];
      Prefix(active, k);
      assert i !in active[..k] && i in Elements(active);
      ghost var before := g;
      g, inDegree := AddEdges(kind, i, deps[i], g, inDegree);
      EdgesStep(kind, active[..k], i, deps, before, g);
      k := k + 1;
    }
    Whole(active);
  }

  /** The first loop (lines 284-291). */
  method Nodes(services: seq<Service>)
    returns (active: seq<nat>, g: Graph, inDegree: map<nat, nat>, tier: map<nat, nat>)
    ensures active == ActiveUpTo(services, |services|) && Elements(active) == g.Keys == inDegree.Keys == tier.Keys
    ensures forall v | v in g :: g[v] == [] && inDegree[v] == 0 && tier[v] == 0
    ensures WellFormed(g) && Counts(g, [], inDegree)
  {
    active, g, inDegree, tier := [], map[], map[], map[];
    var i := 0;
    while i < |services|
      invariant i <= |services| && active == ActiveUpTo(services, i)
      invariant Elements(active) == g.Keys == inDegree.Keys == tier.Keys
      invariant forall v | v in g :: g[v] == [] && inDegree[v] == 0 && tier[v] == 0
    {
      if services[i].active {
        assert Elements(active + [i]) == Elements(active) + {i};
        active := active + [i];
        g, inDegree, tier := g[i := []], inDegree[i := 0], tier[i := 0];
      }
      i := i + 1;
    }
    forall v | v in g ensures |Remaining(g, v, [])| == 0 {
      assert Remaining(g, v, []) == {};
    }
  }

  // ----- a whole run level -----

  predicate IsActive(services: seq<Service>, i: nat) {
    i < |services| && services[i].active
  }

  /** u must be emitted before v: dependencies come first when starting and last when stopping. */
  ghost predicate EmitBefore(services: seq<Service>, kind: Kind, u: nat, v: nat) {
    if kind.Start? then DependsOn(services, v, u) else DependsOn(services, u, v)
  }

  /** Each service of the chain must be emitted before the next. */
  ghost predicate Chain(services: seq<Service>, kind: Kind, p: seq<nat>) {
    && |p| > 0
    && (forall i | 0 <= i < |p| :: IsActive(services, p[i]))
    && forall i | 0 < i < |p| :: EmitBefore(services, kind, p[i - 1], p[i])
  }

  ghost predicate ChainTo(services: seq<Service>, kind: Kind, p: seq<nat>, v: nat) {
    Chain(services, kind, p) && p[|p| - 1] == v
  }

  ghost predicate InLoop(services: seq<Service>, kind: Kind, c: nat) {
    exists p :: ChainTo(services, kind, p, c) && |p| > 1 && p[0] == c
  }

  ghost predicate LedByLoop(services: seq<Service>, kind: Kind, v: nat) {
    exists p :: ChainTo(services, kind, p, v) && InLoop(services, kind, p[0])
  }

  ghost predicate LongestChain(services: seq<Service>, kind: Kind, v: nat, n: nat) {
    (exists p :: ChainTo(services, kind, p, v) && |p| == n + 1) && forall p | ChainTo(services, kind, p, v) :: |p| <= n + 1
  }

  ghost predicate Represents(services: seq<Service>, kind: Kind, g: Graph) {
    && (forall i :: i in g <==> IsActive(services, i))
    && forall u, v :: HasEdge(g, u, v) <==> EmitBefore(services, kind, u, v)
  }

  lemma PathIsChain(services: seq<Service>, kind: Kind, g: Graph, p: seq<nat>, v: nat)
    requires Represents(services, kind, g)
    ensures PathTo(g, p, v) <==> ChainTo(services, kind, p, v)
  {
    if PathTo(g, p, v) {
      forall i | 0 < i < |p| ensures EmitBefore(services, kind, p[i - 1], p[i]) {
        assert HasEdge(g, p[i - 1], p[i]);
      }
    } else if ChainTo(services, kind, p, v) {
      forall i | 0 < i < |p| ensures p[i] in g[p[i - 1]] {
        assert HasEdge(g, p[i - 1], p[i]);
      }
    }
  }

  lemma CycleIsLoop(services: seq<Service>, kind: Kind, g: Graph, c: nat)
    requires Represents(services, kind, g)
    ensures OnCycle(g, c) <==> InLoop(services, kind, c)
  {
    forall p ensures PathTo(g, p, c) <==> ChainTo(services, kind, p, c) {
      PathIsChain(services, kind, g, p, c);
    }
  }

  lemma LedIsLed(services: seq<Service>, kind: Kind, g: Graph, v: nat)
    requires Represents(services, kind, g)
    ensures LedByCycle(g, v) <==> LedByLoop(services, kind, v)
  {
    forall p ensures PathTo(g, p, v) <==> ChainTo(services, kind, p, v) {
      PathIsChain(services, kind, g, p, v);
    }
    forall c ensures OnCycle(g, c) <==> InLoop(services, kind, c) {
      CycleIsLoop(services, kind, g, c);
    }
  }

  lemma LongestIsLongest(services: seq<Service>, kind: Kind, g: Graph, v: nat, n: nat)
    requires Represents(services, kind, g) && LongestTo(g, v, n)
    ensures LongestChain(services, kind, v, n)
  {
    forall p ensures PathTo(g, p, v) <==> ChainTo(services, kind, p, v) {
      PathIsChain(services, kind, g, p, v);
    }
  }

  lemma GraphRepresents(services: seq<Service>, kind: Kind, deps: seq<seq<nat>>, g: Graph)
    requires (forall i | 0 <= i < |services| :: Accepted(services, i)) && Collected(services, |services|, deps)
    requires var active := ActiveUpTo(services, |services|); Elements(active) == g.Keys && EdgesOf(kind, active, deps, g)
    ensures Represents(services, kind, g)
  {
    var active := ActiveUpTo(services, |services|);
    forall i: nat ensures i in g <==> IsActive(services, i) {
      assert i in active <==> i in Elements(active);
    }
    forall u: nat, v: nat ensures HasEdge(g, u, v) <==> EmitBefore(services, kind, u, v) {
      if u in g && v in g {
        CollectedIsDependsOn(services, deps, v, u);
        CollectedIsDependsOn(services, deps, u, v);
        assert u in Elements(active) && v in Elements(active);
      }
    }
  }

  datatype Result = Fatal | Stuck(names: seq<nat>) | Sorted(order: seq<nat>, tier: map<nat, nat>)

  /** Every active service once, and after everything that must be emitted before it. */
  ghost predicate Respects(services: seq<Service>, kind: Kind, order: seq<nat>) {
    && Distinct(order) && (forall i :: i in order <==> IsActive(services, i))
    && forall k, u | 0 <= k < |order| && EmitBefore(services, kind, u, order[k]) :: u in order[..k]
  }

  lemma OrderRespects(services: seq<Service>, kind: Kind, g: Graph, order: seq<nat>)
    requires Represents(services, kind, g) && IsOrder(g, order)
    ensures Respects(services, kind, order)
  {
    assert forall i :: i in order <==> i in Elements(order);
    forall k, u | 0 <= k < |order| && EmitBefore(services, kind, u, order[k]) ensures u in order[..k] {
      assert HasEdge(g, u, order[k]);
    }
  }

  lemma CyclesAreLoops(services: seq<Service>, kind: Kind, g: Graph)
    requires Represents(services, kind, g)
    ensures HasCycle(g) <==> exists c :: InLoop(services, kind, c)
  {
    forall c ensures OnCycle(g, c) <==> InLoop(services, kind, c) {
      CycleIsLoop(services, kind, g, c);
    }
  }

  lemma StuckAreLed(services: seq<Service>, kind: Kind, g: Graph, stuck: seq<nat>)
    requires Represents(services, kind, g) && forall v :: v in stuck <==> v in g && LedByCycle(g, v)
    ensures forall v :: v in stuck <==> IsActive(services, v) && LedByLoop(services, kind, v)
  {
    forall v ensures v in stuck <==> IsActive(services, v) && LedByLoop(services, kind, v) {
      LedIsLed(services, kind, g, v);
    }
  }

  lemma TiersAreLongest(services: seq<Service>, kind: Kind, g: Graph, tier: map<nat, nat>)
    requires Represents(services, kind, g) && tier.Keys == g.Keys && forall v | v in g :: LongestTo(g, v, tier[v])
    ensures forall v | IsActive(services, v) :: v in tier && LongestChain(services, kind, v, tier[v])
  {
    forall v | IsActive(services, v) ensures v in tier && LongestChain(services, kind, v, tier[v]) {
      LongestIsLongest(services, kind, g, v, tier[v]);
    }
  }

  /** sort_runlevel (lines 353-357). */
  method SortRunlevel(services: seq<Service>, kind: Kind) returns (r: Result)
    ensures r.Fatal? <==> !Consistent(services)
    ensures r.Stuck? <==> Consistent(services) && exists c :: InLoop(services, kind, c)
    ensures r.Stuck? ==> Distinct(r.names) && forall v :: v in r.names <==> IsActive(services, v) && LedByLoop(services, kind, v)
    ensures r.Sorted? ==> Respects(services, kind, r.order) && Ascending(r.order, r.tier)
    ensures r.Sorted? ==> forall v | IsActive(services, v) :: v in r.tier && LongestChain(services, kind, v, r.tier[v])
  {
    var ok, deps := CreateDeps(services);
    AcceptedIsConsistent(services);
    if !ok {
      return Fatal;
    }
    var active, g, inDegree, tier := BuildGraph(services, kind, deps);
    GraphRepresents(services, kind, deps, g);
    var outcome := Order(g, active, inDegree, tier);
    CyclesAreLoops(services, kind, g);
    match outcome {
      case Loop(stuck) =>
        StuckAreLed(services, kind, g, stuck);
        return Stuck(stuck);
      case Ordered(order, tier) =>
        OrderRespects(services, kind, g, order);
        TiersAreLongest(services, kind, g, tier);
        return Sorted(order, tier);
    }
  }
}

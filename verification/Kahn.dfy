/** Topological order with tiers: the loops of order_services (tools/sort-services:314-345). */
module Kahn {
  import opened Basics

  /** Each node with its successors. */
  type Graph = map<nat, seq<nat>>

  ghost predicate WellFormed(g: Graph) {
    forall u | u in g :: Distinct(g[u]) && forall v | v in g[u] :: v in g
  }

  // ----- paths -----

  ghost predicate Path(g: Graph, p: seq<nat>) {
    && |p| > 0
    && (forall i | 0 <= i < |p| :: p[i] in g)
    && forall i | 0 < i < |p| :: p[i] in g[p[i - 1]]
  }

  ghost predicate PathTo(g: Graph, p: seq<nat>, v: nat) {
    Path(g, p) && p[|p| - 1] == v
  }

  ghost predicate OnCycle(g: Graph, c: nat) {
    exists p :: PathTo(g, p, c) && |p| > 1 && p[0] == c
  }

  /** Some cycle leads to v; the way from it may be empty. */
  ghost predicate LedByCycle(g: Graph, v: nat) {
    exists p :: PathTo(g, p, v) && OnCycle(g, p[0])
  }

  /** n is the number of steps of the longest path that ends at v. */
  ghost predicate LongestTo(g: Graph, v: nat, n: nat) {
    (exists p :: PathTo(g, p, v) && |p| == n + 1) && forall p | PathTo(g, p, v) :: |p| <= n + 1
  }

  lemma PathExtends(g: Graph, p: seq<nat>, u: nat, v: nat)
    requires PathTo(g, p, u) && v in g && v in g[u]
    ensures PathTo(g, p + [v], v)
  {
  }

  lemma PathPart(g: Graph, p: seq<nat>, i: nat, j: nat)
    requires Path(g, p) && i < j <= |p|
    ensures PathTo(g, p[i..j], p[j - 1])
  {
  }

  // ----- the invariant -----

  ghost function Remaining(g: Graph, v: nat, order: seq<nat>): set<nat> {
    set u | u in g && v in g[u] && u !in order
  }

  /** in_degree counts the predecessors that are not in the order yet. */
  ghost predicate Counts(g: Graph, order: seq<nat>, inDegree: map<nat, nat>) {
    inDegree.Keys == g.Keys && forall v | v in g :: inDegree[v] == |Remaining(g, v, order)|
  }

  /** The nodes that are ordered or queued are those without remaining predecessors, each once. */
  ghost predicate Listed(g: Graph, all: seq<nat>, inDegree: map<nat, nat>) {
    && Distinct(all) && inDegree.Keys == g.Keys
    && (forall v | v in all :: v in g)
    && forall v | v in g :: v in all <==> inDegree[v] == 0
  }

  /** Every predecessor of an ordered node comes before it. */
  ghost predicate Topological(g: Graph, order: seq<nat>) {
    forall k, u | 0 <= k < |order| && u in g && order[k] in g[u] :: u in order[..k]
  }

  ghost predicate TiersGrow(g: Graph, order: seq<nat>, tier: map<nat, nat>) {
    tier.Keys == g.Keys && forall u, v | u in order && u in g && v in g[u] && v in g :: tier[v] >= tier[u] + 1
  }

  /** u, already ordered, is why v has its tier. */
  ghost predicate Reason(g: Graph, order: seq<nat>, tier: map<nat, nat>, u: nat, v: nat) {
    u in order && u in g && v in g[u] && u in tier && v in tier && tier[v] == tier[u] + 1
  }

  ghost predicate TiersJustified(g: Graph, order: seq<nat>, tier: map<nat, nat>) {
    tier.Keys == g.Keys && forall v | v in g :: tier[v] == 0 || exists u :: Reason(g, order, tier, u, v)
  }

  ghost predicate Ascending(all: seq<nat>, tier: map<nat, nat>) {
    (forall v | v in all :: v in tier) && forall i, j | 0 <= i < j < |all| :: tier[all[i]] <= tier[all[j]]
  }

  ghost predicate OrderInv(g: Graph, order: seq<nat>, queue: seq<nat>, inDegree: map<nat, nat>) {
    Counts(g, order, inDegree) && Listed(g, order + queue, inDegree) && Topological(g, order)
  }

  ghost predicate TierInv(g: Graph, order: seq<nat>, queue: seq<nat>, tier: map<nat, nat>) {
    TiersGrow(g, order, tier) && TiersJustified(g, order, tier) && Ascending(order + queue, tier)
  }

  // ----- one node leaves the queue -----

  function Max(a: nat, b: nat): nat {
    if a < b then b else a
  }

  /** The nodes whose last remaining predecessor goes away, in the order of the list. */
  function Freed(vs: seq<nat>, inDegree: map<nat, nat>): seq<nat> {
    if vs == [] then []
    else
      var v, rest := vs[|vs| - 1], Freed(vs[..|vs| - 1], inDegree);
      if v in inDegree && inDegree[v] == 1 then rest + [v] else rest
  }

  ghost predicate Lowered(vs: seq<nat>, before: map<nat, nat>, after: map<nat, nat>) {
    && after.Keys == before.Keys
    && forall v | v in before :: before[v] == if v in vs then after[v] + 1 else after[v]
  }

  ghost predicate Raised(vs: seq<nat>, t: nat, before: map<nat, nat>, after: map<nat, nat>) {
    && after.Keys == before.Keys
    && forall v | v in before :: after[v] == if v in vs then Max(before[v], t) else before[v]
  }

  lemma OneMore(vs: seq<nat>, i: nat)
    requires Distinct(vs) && i < |vs|
    ensures vs[..i + 1][..i] == vs[..i] && vs[i] !in vs[..i]
    ensures forall x :: x in vs[..i + 1] <==> x in vs[..i] || x == vs[i]
  {
    assert vs[..i + 1] == vs[..i] + [vs[i]];
  }

  lemma LoweredNext(vs: seq<nat>, i: nat, before: map<nat, nat>, after: map<nat, nat>)
    requires Distinct(vs) && i < |vs| && vs[i] in before && before[vs[i]] > 0 && Lowered(vs[..i], before, after)
    ensures after[vs[i]] == before[vs[i]] && Lowered(vs[..i + 1], before, after[vs[i] := after[vs[i]] - 1])
  {
    OneMore(vs, i);
  }

  lemma RaisedNext(vs: seq<nat>, i: nat, t: nat, before: map<nat, nat>, after: map<nat, nat>)
    requires Distinct(vs) && i < |vs| && vs[i] in before && Raised(vs[..i], t, before, after)
    ensures Raised(vs[..i + 1], t, before, if after[vs[i]] < t then after[vs[i] := t] else after)
  {
    OneMore(vs, i);
  }

  /** The loop over the successors of a node of tier t (lines 325-333). */
  method Relax(vs: seq<nat>, t: nat, queue: seq<nat>, inDegree: map<nat, nat>, tier: map<nat, nat>)
    returns (queue': seq<nat>, inDegree': map<nat, nat>, tier': map<nat, nat>)
    requires Distinct(vs) && forall v | v in vs :: v in inDegree && v in tier && inDegree[v] > 0
    ensures queue' == queue + Freed(vs, inDegree)
    ensures Lowered(vs, inDegree, inDegree') && Raised(vs, t + 1, tier, tier')
  {
    queue', inDegree', tier' := queue, inDegree, tier;
    var i := 0;
    while i < |vs|
      invariant i <= |vs| && queue' == queue + Freed(vs[..i], inDegree)
      invariant Lowered(vs[..i], inDegree, inDegree') && Raised(vs[..i], t + 1, tier, tier')
    {
      var v := vs[i];
      OneMore(vs, i);
      LoweredNext(vs, i, inDegree, inDegree');
      RaisedNext(vs, i, t + 1, tier, tier');
      if tier'[v] < t + 1 {
        tier' := tier'[v := t + 1];
      }
      inDegree' := inDegree'[v := inDegree'[v] - 1];
      if inDegree'[v] == 0 {
        queue' := queue' + [v];
      }
      i := i + 1;
    }
    assert vs[..i] == vs;
  }

  lemma {:induction false} FreedAre(vs: seq<nat>, inDegree: map<nat, nat>)
    requires Distinct(vs)
    ensures forall v :: v in Freed(vs, inDegree) <==> v in vs && v in inDegree && inDegree[v] == 1
    ensures Distinct(Freed(vs, inDegree))
    decreases |vs|
  {
    if vs != [] {
      var n := |vs| - 1;
      FreedAre(vs[..n], inDegree);
      assert vs == vs[..n] + [vs[n]] && vs[n] !in vs[..n];
    }
  }

  lemma NoneRemain(g: Graph, v: nat, order: seq<nat>)
    requires |Remaining(g, v, order)| == 0
    ensures forall u | u in g && v in g[u] :: u in order
  {
    forall u | u in g && v in g[u] ensures u in order {
      assert u !in Remaining(g, v, order);
    }
  }

  lemma DistinctSplit(a: seq<nat>, b: seq<nat>)
    requires Distinct(a + b)
    ensures forall x | x in a :: x !in b
  {
    forall i, j | 0 <= i < |a| && 0 <= j < |b| ensures a[i] != b[j] {
      assert (a + b)[i] == a[i] && (a + b)[|a| + j] == b[j];
    }
  }

  lemma DistinctJoin(a: seq<nat>, b: seq<nat>)
    requires Distinct(a) && Distinct(b) && forall x | x in a :: x !in b
    ensures Distinct(a + b)
  {
    forall i, j | 0 <= i < j < |a + b| ensures (a + b)[i] != (a + b)[j] {
      if i < |a| <= j {
        assert a[i] in a && b[j - |a|] in b;
      }
    }
  }

  /** Nothing that is listed already is a successor of the node that leaves the queue. */
  lemma ListedHaveNone(g: Graph, order: seq<nat>, queue: seq<nat>, inDegree: map<nat, nat>)
    requires Counts(g, order, inDegree) && Listed(g, order + queue, inDegree) && queue != []
    ensures var u := queue[0]; u in g && u !in order && inDegree[u] == 0 && forall x | x in order + queue :: x !in g[u]
    ensures forall v | v in g[queue[0]] && v in g :: inDegree[v] > 0
  {
    var u := queue[0];
    DistinctSplit(order, queue);
    assert u in order + queue;
    forall x | x in order + queue ensures x !in g[u] {
      NoneRemain(g, x, order);
    }
    forall v | v in g[u] && v in g ensures inDegree[v] > 0 {
      assert u in Remaining(g, v, order);
    }
  }

  lemma CountsStep(g: Graph, order: seq<nat>, u: nat, inDegree: map<nat, nat>, inDegree': map<nat, nat>)
    requires Counts(g, order, inDegree) && u in g && u !in order && Lowered(g[u], inDegree, inDegree')
    ensures Counts(g, order + [u], inDegree')
  {
    forall v | v in g ensures inDegree'[v] == |Remaining(g, v, order + [u])| {
      RemainingStep(g, v, order, u);
    }
  }

  lemma RemainingStep(g: Graph, v: nat, order: seq<nat>, u: nat)
    requires u in g && u !in order
    ensures |Remaining(g, v, order)| == |Remaining(g, v, order + [u])| + if v in g[u] then 1 else 0
  {
    var before, after := Remaining(g, v, order), Remaining(g, v, order + [u]);
    if v in g[u] {
      assert before == after + {u} && u !in after;
    } else {
      assert before == after;
    }
  }

  lemma ListedStep(g: Graph, all: seq<nat>, u: nat, inDegree: map<nat, nat>, inDegree': map<nat, nat>)
    requires WellFormed(g) && u in g && Listed(g, all, inDegree) && Lowered(g[u], inDegree, inDegree')
    requires forall x | x in all :: x !in g[u]
    ensures Listed(g, all + Freed(g[u], inDegree), inDegree')
  {
    FreedAre(g[u], inDegree);
    DistinctJoin(all, Freed(g[u], inDegree));
  }

  lemma TopologicalStep(g: Graph, order: seq<nat>, u: nat)
    requires Topological(g, order) && |Remaining(g, u, order)| == 0
    ensures Topological(g, order + [u])
  {
    NoneRemain(g, u, order);
    var order' := order + [u];
    forall k, w | 0 <= k < |order'| && w in g && order'[k] in g[w] ensures w in order'[..k] {
      assert order'[..k] == order[..k];
    }
  }

  lemma GrowStep(g: Graph, order: seq<nat>, u: nat, tier: map<nat, nat>, tier': map<nat, nat>)
    requires u in g && TiersGrow(g, order, tier)
    requires Raised(g[u], tier[u] + 1, tier, tier') && forall x | x in order + [u] :: x !in g[u]
    ensures TiersGrow(g, order + [u], tier')
  {
    forall w, v | w in order + [u] && w in g && v in g[w] && v in g ensures tier'[v] >= tier'[w] + 1 {
      assert tier'[w] == tier[w];
    }
  }

  lemma JustifiedStep(g: Graph, order: seq<nat>, u: nat, tier: map<nat, nat>, tier': map<nat, nat>)
    requires u in g && TiersJustified(g, order, tier)
    requires Raised(g[u], tier[u] + 1, tier, tier') && forall x | x in order + [u] :: x !in g[u]
    ensures TiersJustified(g, order + [u], tier')
  {
    assert u in order + [u];
    forall v | v in g && tier'[v] != 0 ensures exists w :: Reason(g, order + [u], tier', w, v) {
      if tier'[v] == tier[v] {
        var w :| Reason(g, order, tier, w, v);
        assert w in order + [u];
        assert Reason(g, order + [u], tier', w, v);
      } else {
        assert Reason(g, order + [u], tier', u, v);
      }
    }
  }

  /** A tier is at most one above that of the node at the head of the queue. */
  lemma TierBound(g: Graph, order: seq<nat>, queue: seq<nat>, tier: map<nat, nat>, v: nat)
    requires queue != [] && TiersJustified(g, order, tier) && Ascending(order + queue, tier) && v in g
    ensures tier[v] <= tier[queue[0]] + 1
  {
    if tier[v] != 0 {
      var w :| Reason(g, order, tier, w, v);
      var i :| 0 <= i < |order| && order[i] == w;
      var all := order + queue;
      assert all[i] == w && all[|order|] == queue[0];
    }
  }

  /** Because the queue is first in, first out, what is appended has the largest tier so far. */
  lemma AscendingStep(g: Graph, order: seq<nat>, queue: seq<nat>, freed: seq<nat>, tier: map<nat, nat>, tier': map<nat, nat>)
    requires queue != [] && queue[0] in g && TiersJustified(g, order, tier) && Ascending(order + queue, tier)
    requires var u := queue[0]; Raised(g[u], tier[u] + 1, tier, tier') && (forall x | x in order + queue :: x !in g[u])
    requires forall v | v in freed :: v in g && v in g[queue[0]]
    ensures Ascending(order + queue + freed, tier')
  {
    var u, all, all' := queue[0], order + queue, order + queue + freed;
    forall v | v in g ensures tier[v] <= tier[u] + 1 {
      TierBound(g, order, queue, tier, v);
    }
    forall i, j | 0 <= i < j < |all'| ensures tier'[all'[i]] <= tier'[all'[j]] {
      if j < |all| {
        assert all'[i] == all[i] && all'[j] == all[j];
      } else {
        assert all'[j] in freed;
      }
    }
  }

  lemma Moved(order: seq<nat>, queue: seq<nat>, freed: seq<nat>)
    requires queue != []
    ensures order + [queue[0]] + (queue[1..] + freed) == order + queue + freed
  {
  }

  lemma OrderStep(g: Graph, order: seq<nat>, queue: seq<nat>, inDegree: map<nat, nat>, inDegree': map<nat, nat>)
    requires WellFormed(g) && OrderInv(g, order, queue, inDegree) && queue != []
    requires queue[0] in g && Lowered(g[queue[0]], inDegree, inDegree')
    ensures var u := queue[0]; OrderInv(g, order + [u], queue[1..] + Freed(g[u], inDegree), inDegree')
  {
    var u := queue[0];
    var freed := Freed(g[u], inDegree);
    Moved(order, queue, freed);
    ListedHaveNone(g, order, queue, inDegree);
    CountsStep(g, order, u, inDegree, inDegree');
    ListedStep(g, order + queue, u, inDegree, inDegree');
    TopologicalStep(g, order, u);
  }

  lemma TierStep(g: Graph, order: seq<nat>, queue: seq<nat>, freed: seq<nat>, tier: map<nat, nat>, tier': map<nat, nat>)
    requires TierInv(g, order, queue, tier) && queue != [] && queue[0] in g
    requires var u := queue[0]; Raised(g[u], tier[u] + 1, tier, tier') && (forall x | x in order + queue :: x !in g[u])
    requires forall v | v in freed :: v in g && v in g[queue[0]]
    ensures TierInv(g, order + [queue[0]], queue[1..] + freed, tier')
  {
    var u := queue[0];
    Moved(order, queue, freed);
    assert forall x | x in order + [u] :: x in order + queue;
    GrowStep(g, order, u, tier, tier');
    JustifiedStep(g, order, u, tier, tier');
    AscendingStep(g, order, queue, freed, tier, tier');
  }

  // ----- cycles -----

  lemma {:induction false} DistinctSize(s: seq<nat>)
    requires Distinct(s)
    ensures |Elements(s)| == |s|
    decreases |s|
  {
    if s != [] {
      var n := |s| - 1;
      DistinctSize(s[..n]);
      assert Elements(s) == Elements(s[..n]) + {s[n]} && s[n] !in s[..n];
    }
  }

  /** Going back along a path from position k of a topological order moves towards its start. */
  lemma {:induction false} PathInOrder(g: Graph, order: seq<nat>, p: seq<nat>, k: nat)
    requires Topological(g, order) && k < |order| && PathTo(g, p, order[k])
    ensures |p| <= k + 1 && p[0] in order[..k + 2 - |p|]
    decreases |p|
  {
    if |p| > 1 {
      var n := |p| - 1;
      var i :| 0 <= i < k && order[i] == p[n - 1];
      PathPart(g, p, 0, n);
      assert p[..n] == p[0..n];
      PathInOrder(g, order, p[..n], i);
    }
  }

  lemma NoReturn(g: Graph, order: seq<nat>, p: seq<nat>, k: nat)
    requires Topological(g, order) && Distinct(order) && k < |order| && PathTo(g, p, order[k]) && |p| > 1
    ensures p[0] != order[k]
  {
    PathInOrder(g, order, p, k);
  }

  lemma OrderedNotLed(g: Graph, order: seq<nat>, v: nat)
    requires Topological(g, order) && Distinct(order) && v in order
    ensures !LedByCycle(g, v)
  {
    if LedByCycle(g, v) {
      var p :| PathTo(g, p, v) && OnCycle(g, p[0]);
      var k :| 0 <= k < |order| && order[k] == v;
      PathInOrder(g, order, p, k);
      var c :| PathTo(g, c, p[0]) && |c| > 1 && c[0] == p[0];
      var i :| 0 <= i < |order| && order[i] == p[0];
      NoReturn(g, order, c, i);
    }
  }

  /** A node that never became free has an endless way back through such nodes. */
  lemma {:induction false} WayBack(g: Graph, order: seq<nat>, inDegree: map<nat, nat>, v: nat, n: nat) returns (p: seq<nat>)
    requires Counts(g, order, inDegree) && Listed(g, order, inDegree) && v in g && v !in order
    ensures PathTo(g, p, v) && |p| == n + 1
    decreases n
  {
    if n == 0 {
      p := [v];
    } else {
      assert Remaining(g, v, order) != {};
      var u :| u in Remaining(g, v, order);
      var q := WayBack(g, order, inDegree, u, n - 1);
      PathExtends(g, q, u, v);
      p := q + [v];
    }
  }

  lemma Repeats(g: Graph, p: seq<nat>) returns (i: nat, j: nat)
    requires |p| > |g| && forall k | 0 <= k < |p| :: p[k] in g
    ensures i < j < |p| && p[i] == p[j]
  {
    if Distinct(p) {
      DistinctSize(p);
      SubsetSize(Elements(p), g.Keys);
      assert false;
    }
    i, j :| 0 <= i < j < |p| && p[i] == p[j];
  }

  lemma StuckIsLed(g: Graph, order: seq<nat>, inDegree: map<nat, nat>, v: nat)
    requires Counts(g, order, inDegree) && Listed(g, order, inDegree) && v in g && v !in order
    ensures LedByCycle(g, v)
  {
    var p := WayBack(g, order, inDegree, v, |g|);
    var i, j := Repeats(g, p);
    RepeatLeads(g, p, i, j, v);
  }

  /** A path that comes to a node twice has a cycle that leads to its end. */
  lemma RepeatLeads(g: Graph, p: seq<nat>, i: nat, j: nat, v: nat)
    requires PathTo(g, p, v) && i < j < |p| && p[i] == p[j]
    ensures LedByCycle(g, v)
  {
    PathPart(g, p, i, |p|);
    PathPart(g, p, i, j + 1);
    assert PathTo(g, p[i..j + 1], p[i]) && PathTo(g, p[i..|p|], v);
    assert OnCycle(g, p[i]);
  }

  lemma CycleLeadsToItself(g: Graph, c: nat)
    requires OnCycle(g, c)
    ensures c in g && LedByCycle(g, c)
  {
    var p :| PathTo(g, p, c) && |p| > 1 && p[0] == c;
    assert PathTo(g, [c], c);
  }

  lemma LedHasCycle(g: Graph, v: nat)
    requires LedByCycle(g, v)
    ensures exists c :: OnCycle(g, c)
  {
  }

  // ----- tiers -----

  lemma {:induction false} TierReached(g: Graph, order: seq<nat>, tier: map<nat, nat>, v: nat, n: nat) returns (p: seq<nat>)
    requires TiersJustified(g, order, tier) && v in g && tier[v] == n
    ensures PathTo(g, p, v) && |p| == n + 1
    decreases n
  {
    if n == 0 {
      p := [v];
    } else {
      var u :| Reason(g, order, tier, u, v);
      var q := TierReached(g, order, tier, u, n - 1);
      PathExtends(g, q, u, v);
      p := q + [v];
    }
  }

  lemma {:induction false} TierBounds(g: Graph, order: seq<nat>, tier: map<nat, nat>, p: seq<nat>, v: nat)
    requires TiersGrow(g, order, tier) && PathTo(g, p, v) && forall x | x in g :: x in order
    ensures |p| <= tier[v] + 1
    decreases |p|
  {
    if |p| > 1 {
      var n := |p| - 1;
      PathPart(g, p, 0, n);
      assert p[..n] == p[0..n];
      TierBounds(g, order, tier, p[..n], p[n - 1]);
    }
  }

  lemma TierIsLongest(g: Graph, order: seq<nat>, tier: map<nat, nat>, v: nat)
    requires TiersGrow(g, order, tier) && TiersJustified(g, order, tier) && v in g && forall x | x in g :: x in order
    ensures LongestTo(g, v, tier[v])
  {
    var p := TierReached(g, order, tier, v, tier[v]);
    forall q | PathTo(g, q, v) ensures |q| <= tier[v] + 1 {
      TierBounds(g, order, tier, q, v);
    }
  }

  // ----- the loop -----

  datatype Outcome = Ordered(order: seq<nat>, tier: map<nat, nat>) | Loop(stuck: seq<nat>)

  function Where(active: seq<nat>, inDegree: map<nat, nat>, free: bool): seq<nat> {
    if active == [] then []
    else
      var v, rest := active[|active| - 1], Where(active[..|active| - 1], inDegree, free);
      if v in inDegree && (inDegree[v] == 0) == free then rest + [v] else rest
  }

  lemma {:induction false} WhereIs(active: seq<nat>, inDegree: map<nat, nat>, free: bool)
    requires Distinct(active) && forall v | v in active :: v in inDegree
    ensures forall v :: v in Where(active, inDegree, free) <==> v in active && (inDegree[v] == 0) == free
    ensures Distinct(Where(active, inDegree, free))
    decreases |active|
  {
    if active != [] {
      var n := |active| - 1;
      WhereIs(active[..n], inDegree, free);
      assert active == active[..n] + [active[n]] && active[n] !in active[..n];
    }
  }

  /** The loops over the active services (lines 314-318 and 338-343). */
  method Filter(active: seq<nat>, inDegree: map<nat, nat>, free: bool) returns (r: seq<nat>)
    requires forall v | v in active :: v in inDegree
    ensures r == Where(active, inDegree, free)
  {
    r := [];
    var i := 0;
    while i < |active|
      invariant i <= |active| && r == Where(active[..i], inDegree, free)
    {
      assert active[..i + 1][..i] == active[..i];
      if (inDegree[active[i]] == 0) == free {
        r := r + [active[i]];
      }
      i := i + 1;
    }
    assert active[..i] == active;
  }

  /** One turn of the main loop (lines 321-333). */
  method Turn(g: Graph, order: seq<nat>, queue: seq<nat>, inDegree: map<nat, nat>, tier: map<nat, nat>)
    returns (order': seq<nat>, queue': seq<nat>, inDegree': map<nat, nat>, tier': map<nat, nat>)
    requires WellFormed(g) && OrderInv(g, order, queue, inDegree) && TierInv(g, order, queue, tier) && queue != []
    ensures OrderInv(g, order', queue', inDegree') && TierInv(g, order', queue', tier') && order' == order + [queue[0]]
  {
    var u := queue[0];
    Ready(g, order, queue, inDegree);
    order', queue' := order + [u], queue[1..];
    queue', inDegree', tier' := Relax(g[u], tier[u], queue', inDegree, tier);
    Kept(g, order, queue, inDegree, tier, inDegree', tier');
  }

  lemma Ready(g: Graph, order: seq<nat>, queue: seq<nat>, inDegree: map<nat, nat>)
    requires WellFormed(g) && OrderInv(g, order, queue, inDegree) && queue != []
    ensures queue[0] in g && Distinct(g[queue[0]]) && forall v | v in g[queue[0]] :: v in g && inDegree[v] > 0
  {
    ListedHaveNone(g, order, queue, inDegree);
  }

  lemma Kept(g: Graph, order: seq<nat>, queue: seq<nat>, inDegree: map<nat, nat>, tier: map<nat, nat>,
             inDegree': map<nat, nat>, tier': map<nat, nat>)
    requires WellFormed(g) && OrderInv(g, order, queue, inDegree) && TierInv(g, order, queue, tier) && queue != []
    requires var u := queue[0]; u in g && Lowered(g[u], inDegree, inDegree') && Raised(g[u], tier[u] + 1, tier, tier')
    ensures var u := queue[0]; var rest := queue[1..] + Freed(g[u], inDegree);
            OrderInv(g, order + [u], rest, inDegree') && TierInv(g, order + [u], rest, tier')
  {
    OrderStep(g, order, queue, inDegree, inDegree');
    ListedHaveNone(g, order, queue, inDegree);
    FreedAre(g[queue[0]], inDegree);
    TierStep(g, order, queue, Freed(g[queue[0]], inDegree), tier, tier');
  }

  /** The main loop (lines 320-334). */
  method Drain(g: Graph, queue0: seq<nat>, inDegree0: map<nat, nat>, tier0: map<nat, nat>)
    returns (order: seq<nat>, inDegree: map<nat, nat>, tier: map<nat, nat>)
    requires WellFormed(g) && OrderInv(g, [], queue0, inDegree0) && TierInv(g, [], queue0, tier0)
    ensures OrderInv(g, order, [], inDegree) && TierInv(g, order, [], tier)
  {
    var queue := queue0;
    order, inDegree, tier := [], inDegree0, tier0;
    while queue != []
      invariant OrderInv(g, order, queue, inDegree) && TierInv(g, order, queue, tier)
      decreases |g| - |order|
    {
      Shorter(g, order, queue, inDegree);
      order, queue, inDegree, tier := Turn(g, order, queue, inDegree, tier);
    }
  }

  lemma Shorter(g: Graph, order: seq<nat>, queue: seq<nat>, inDegree: map<nat, nat>)
    requires Listed(g, order + queue, inDegree)
    ensures |order| + |queue| <= |g|
  {
    DistinctSize(order + queue);
    SubsetSize(Elements(order + queue), g.Keys);
  }

  // ----- the result -----

  /** Every node once, after all its predecessors. */
  ghost predicate IsOrder(g: Graph, order: seq<nat>) {
    Distinct(order) && Elements(order) == g.Keys && Topological(g, order)
  }

  ghost predicate HasCycle(g: Graph) {
    exists c :: OnCycle(g, c)
  }

  lemma CompleteOrder(g: Graph, order: seq<nat>, inDegree: map<nat, nat>, tier: map<nat, nat>)
    requires OrderInv(g, order, [], inDegree) && TierInv(g, order, [], tier) && |order| >= |g|
    ensures IsOrder(g, order) && Ascending(order, tier) && !HasCycle(g)
    ensures tier.Keys == g.Keys && forall v | v in g :: LongestTo(g, v, tier[v])
  {
    assert order + [] == order;
    DistinctSize(order);
    SubsetSize(Elements(order), g.Keys);
    assert forall v :: v in order <==> v in Elements(order);
    forall v | v in g ensures LongestTo(g, v, tier[v]) {
      TierIsLongest(g, order, tier, v);
    }
    if HasCycle(g) {
      var c :| OnCycle(g, c);
      CycleLeadsToItself(g, c);
      OrderedNotLed(g, order, c);
    }
  }

  lemma StuckAreLed(g: Graph, order: seq<nat>, inDegree: map<nat, nat>)
    requires OrderInv(g, order, [], inDegree)
    ensures forall v | v in g :: inDegree[v] > 0 <==> LedByCycle(g, v)
  {
    assert order + [] == order;
    forall v | v in g ensures inDegree[v] > 0 <==> LedByCycle(g, v) {
      if v in order {
        OrderedNotLed(g, order, v);
      } else {
        StuckIsLed(g, order, inDegree, v);
      }
    }
  }

  lemma IncompleteOrder(g: Graph, order: seq<nat>, inDegree: map<nat, nat>)
    requires OrderInv(g, order, [], inDegree) && |order| < |g|
    ensures HasCycle(g)
  {
    assert order + [] == order;
    DistinctSize(order);
    assert Elements(order) != g.Keys;
    assert exists v :: v in g && v !in order;
    var v :| v in g && v !in order;
    StuckIsLed(g, order, inDegree, v);
    LedHasCycle(g, v);
  }

  lemma StartInv(g: Graph, active: seq<nat>, inDegree: map<nat, nat>, tier: map<nat, nat>)
    requires Distinct(active) && Elements(active) == g.Keys && Counts(g, [], inDegree)
    requires tier.Keys == g.Keys && forall v | v in g :: tier[v] == 0
    ensures var queue := Where(active, inDegree, true); OrderInv(g, [], queue, inDegree) && TierInv(g, [], queue, tier)
  {
    var queue := Where(active, inDegree, true);
    assert forall v :: v in active <==> v in Elements(active);
    WhereIs(active, inDegree, true);
    assert [] + queue == queue;
    NothingEmitted(g, queue, tier);
  }

  lemma NothingEmitted(g: Graph, queue: seq<nat>, tier: map<nat, nat>)
    requires (forall v | v in queue :: v in tier) && forall v | v in tier :: tier[v] == 0
    requires tier.Keys == g.Keys
    ensures TiersGrow(g, [], tier) && TiersJustified(g, [], tier) && Ascending(queue, tier) && Topological(g, [])
  {
  }

  lemma StuckListed(g: Graph, active: seq<nat>, order: seq<nat>, inDegree: map<nat, nat>)
    requires Distinct(active) && Elements(active) == g.Keys && OrderInv(g, order, [], inDegree)
    ensures var stuck := Where(active, inDegree, false);
            Distinct(stuck) && forall v :: v in stuck <==> v in g && LedByCycle(g, v)
  {
    assert forall v :: v in active <==> v in Elements(active);
    WhereIs(active, inDegree, false);
    StuckAreLed(g, order, inDegree);
  }

  /** order_services from its queue on (lines 314-350): it fails if and only if there is a cycle,
      and then lists the nodes some cycle leads to.  Otherwise every node comes once, after its
      predecessors, with the length of the longest chain that ends at it for a tier, and the
      tiers never decrease along the order. */
  method Order(g: Graph, active: seq<nat>, inDegree0: map<nat, nat>, tier0: map<nat, nat>) returns (r: Outcome)
    requires WellFormed(g) && Distinct(active) && Elements(active) == g.Keys
    requires Counts(g, [], inDegree0) && tier0.Keys == g.Keys && forall v | v in g :: tier0[v] == 0
    ensures r.Loop? <==> HasCycle(g)
    ensures r.Loop? ==> Distinct(r.stuck) && forall v :: v in r.stuck <==> v in g && LedByCycle(g, v)
    ensures r.Ordered? ==> IsOrder(g, r.order) && Ascending(r.order, r.tier)
    ensures r.Ordered? ==> r.tier.Keys == g.Keys && forall v | v in g :: LongestTo(g, v, r.tier[v])
  {
    ActiveKnown(g, active);
    StartInv(g, active, inDegree0, tier0);
    var queue := Filter(active, inDegree0, true);
    var order, inDegree, tier := Drain(g, queue, inDegree0, tier0);
    if |order| < |active| {
      IncompleteOrder(g, order, inDegree);
      StuckListed(g, active, order, inDegree);
      var stuck := Filter(active, inDegree, false);
      return Loop(stuck);
    }
    CompleteOrder(g, order, inDegree, tier);
    return Ordered(order, tier);
  }

  lemma ActiveKnown(g: Graph, active: seq<nat>)
    requires Distinct(active) && Elements(active) == g.Keys
    ensures |active| == |g| && forall v | v in active :: v in g
  {
    DistinctSize(active);
    assert forall v | v in active :: v in Elements(active);
  }
}

/** utils/udev-rules/list_sort.c on the heap: intrusive list nodes relinked in place.

    Pointers to pointers (tail) become the node whose link is meant, null standing
    for the local variable itself.  The ghost sequences name the nodes of each list;
    the values they take are those of module StableMerge. */
module ListSort {
  import S = StableMerge

  /** struct list_head (utils/udev-rules/list.h:53-56). */
  class Node {
    var next: Node?
    var prev: Node?
  }

  ghost predicate NoDup(s: seq<Node>) {
    forall i, j | 0 <= i < j < |s| :: s[i] != s[j]
  }

  /** A null-terminated list through next; an open chain leaves the last link out. */
  ghost predicate Chain(s: seq<Node>)
    reads s`next
  {
    OpenChain(s) && (s != [] ==> s[|s| - 1].next == null)
  }

  ghost predicate OpenChain(s: seq<Node>)
    reads s`next
  {
    forall i {:trigger s[i].next} | 0 <= i < |s| - 1 :: s[i].next == s[i + 1]
  }

  ghost predicate Apart(s: seq<Node>, t: seq<Node>) {
    forall x | x in s :: x !in t
  }

  /** Three lists without a common node and without repetitions: what a merge has
      linked so far and what is left of its two inputs. */
  ghost predicate Split(done: seq<Node>, p: seq<Node>, q: seq<Node>) {
    && NoDup(done) && NoDup(p) && NoDup(q)
    && Apart(done, p) && Apart(done, q) && Apart(p, q)
  }

  lemma SplitMove(done: seq<Node>, p: seq<Node>, q: seq<Node>)
    requires Split(done, p, q) && p != []
    ensures Split(done + [p[0]], p[1..], q)
  {
    assert p[0] in p;
  }

  lemma SplitJoin(done: seq<Node>, q: seq<Node>)
    requires NoDup(done) && NoDup(q) && Apart(done, q)
    ensures NoDup(done + q)
  {
    var s := done + q;
    forall i, j | 0 <= i < j < |s| ensures s[i] != s[j] {
      if i < |done| <= j {
        assert done[i] in done && q[j - |done|] in q;
      }
    }
  }

  /** done has been linked from head to tail and p and q are still to be merged;
      once one of them is empty the other already hangs off tail. */
  ghost predicate Linked(head: Node, tail: Node?, done: seq<Node>, p: seq<Node>, q: seq<Node>)
    reads done`next, p`next, q`next
  {
    && tail == (if done == [] then null else done[|done| - 1])
    && (done != [] ==> head == done[0])
    && OpenChain(done) && Chain(p) && Chain(q)
    && (p == [] ==> Chain(done + q))
    && (q == [] ==> Chain(done + p))
  }

  /** One turn of a merge loop: n, the head of p, is linked after done; when p runs
      out, what is left of the other list follows. */
  method Advance(head: Node, tail: Node?, n: Node, other: Node, ghost done: seq<Node>, ghost p: seq<Node>, ghost q: seq<Node>)
    returns (first: Node, rest: Node?)
    requires p != [] && q != [] && n == p[0] && other == q[0]
    requires Linked(head, tail, done, p, q) && Split(done, p, q)
    modifies (if tail == null then {} else {tail})`next, n`next
    ensures rest == if |p| > 1 then p[1] else null
    ensures Linked(first, n, done + [n], p[1..], q) && Linked(first, n, done + [n], q, p[1..])
  {
    assert n in p;
    assert tail != null ==> tail in done;
    first := head;
    if tail == null {
      first := n;
    } else {
      tail.next := n;
    }
    rest := n.next;
    if rest == null {
      n.next := other;
      ghost var s := done + [n] + q;
      forall i | 0 <= i < |s| - 1 ensures s[i].next == s[i + 1] {
        if i > |done| {
          assert s[i] == q[i - |done| - 1] && s[i] in q;
        } else if i < |done| {
          assert s[i] in done;
        }
      }
      assert s[|s| - 1] == q[|q| - 1] && q[|q| - 1] in q;
    }
  }

  lemma MergeMembers(cmp: (Node, Node) -> int, xs: seq<Node>, ys: seq<Node>)
    ensures forall x :: x in S.Merge(cmp, xs, ys) <==> x in xs || x in ys
  {
    S.MergePermutes(cmp, xs, ys);
    forall x ensures x in S.Merge(cmp, xs, ys) <==> x in xs || x in ys {
      assert x in S.Merge(cmp, xs, ys) <==> x in multiset(S.Merge(cmp, xs, ys));
      assert x in xs <==> x in multiset(xs);
      assert x in ys <==> x in multiset(ys);
    }
  }

  /** What is known about the contents while xs and ys are being merged. */
  ghost predicate Merging(cmp: (Node, Node) -> int, dom: set<Node>, xs: seq<Node>, ys: seq<Node>,
                          done: seq<Node>, p: seq<Node>, q: seq<Node>) {
    && Split(done, p, q)
    && S.Within(done, dom) && S.Within(p, dom) && S.Within(q, dom)
    && S.Merge(cmp, xs, ys) == done + S.Merge(cmp, p, q)
  }

  lemma MergingTake(cmp: (Node, Node) -> int, dom: set<Node>, xs: seq<Node>, ys: seq<Node>,
                    done: seq<Node>, p: seq<Node>, q: seq<Node>)
    requires Merging(cmp, dom, xs, ys, done, p, q) && p != [] && q != []
    ensures cmp(p[0], q[0]) <= 0 ==> Merging(cmp, dom, xs, ys, done + [p[0]], p[1..], q)
    ensures cmp(p[0], q[0]) > 0 ==> Merging(cmp, dom, xs, ys, done + [q[0]], p, q[1..])
  {
    if cmp(p[0], q[0]) <= 0 {
      assert done + ([p[0]] + S.Merge(cmp, p[1..], q)) == done + [p[0]] + S.Merge(cmp, p[1..], q);
      SplitMove(done, p, q);
    } else {
      assert done + ([q[0]] + S.Merge(cmp, p, q[1..])) == done + [q[0]] + S.Merge(cmp, p, q[1..]);
      SplitMove(done, q, p);
    }
  }

  lemma MergingDone(cmp: (Node, Node) -> int, dom: set<Node>, xs: seq<Node>, ys: seq<Node>,
                    done: seq<Node>, rest: seq<Node>)
    requires Merging(cmp, dom, xs, ys, done, [], rest) || Merging(cmp, dom, xs, ys, done, rest, [])
    ensures NoDup(done + rest) && done + rest == S.Merge(cmp, xs, ys)
    ensures forall x :: x in done + rest <==> x in xs || x in ys
  {
    SplitJoin(done, rest);
    MergeMembers(cmp, xs, ys);
  }

  /** The variables of merge at the top of its loop. */
  ghost predicate AtTop(a: Node?, b: Node?, done: seq<Node>, p: seq<Node>, q: seq<Node>) {
    && a == (if p == [] then null else p[0])
    && b == (if q == [] then null else q[0])
    && (if done == [] then p != [] && q != [] else p != [] || q != [])
  }

  /** The body of merge's loop (lines 17-34): equal elements are taken from a. */
  method Turn(cmp: (Node, Node) -> int, head: Node, tail: Node?, a: Node, b: Node, ghost dom: set<Node>,
              ghost xs: seq<Node>, ghost ys: seq<Node>, ghost done: seq<Node>, ghost p: seq<Node>, ghost q: seq<Node>)
    returns (first: Node, last: Node, a': Node?, b': Node?, ghost done': seq<Node>, ghost p': seq<Node>, ghost q': seq<Node>)
    requires AtTop(a, b, done, p, q) && Linked(head, tail, done, p, q) && Merging(cmp, dom, xs, ys, done, p, q)
    modifies dom`next
    ensures AtTop(a', b', done', p', q') && Linked(first, last, done', p', q') && Merging(cmp, dom, xs, ys, done', p', q')
    ensures |p'| + |q'| < |p| + |q|
  {
    MergingTake(cmp, dom, xs, ys, done, p, q);
    a', b', p', q' := a, b, p, q;
    assert a in p && b in q && (tail != null ==> tail in done);
    if cmp(a, b) <= 0 {
      first, a' := Advance(head, tail, a, b, done, p, q);
      last, done', p' := a, done + [a], p[1..];
    } else {
      first, b' := Advance(head, tail, b, a, done, q, p);
      last, done', q' := b, done + [b], q[1..];
    }
  }

  /** merge (lines 11-37): the nodes of two lists relinked into one; prev links are left alone. */
  method Merge(cmp: (Node, Node) -> int, a0: Node, b0: Node, ghost xs: seq<Node>, ghost ys: seq<Node>)
    returns (head: Node, ghost merged: seq<Node>)
    requires xs != [] && ys != [] && xs[0] == a0 && ys[0] == b0
    requires Chain(xs) && Chain(ys) && NoDup(xs) && NoDup(ys) && Apart(xs, ys)
    modifies (set x | x in xs + ys)`next
    ensures merged == S.Merge(cmp, xs, ys)
    ensures merged != [] && head == merged[0]
    ensures Chain(merged) && NoDup(merged)
    ensures forall x :: x in merged <==> x in xs || x in ys
  {
    var a: Node?, b: Node?, tail: Node? := a0, b0, null;
    head := a0;
    ghost var dom := set x | x in xs + ys;
    ghost var done: seq<Node>, p, q := [], xs, ys;
    while a != null && b != null
      invariant AtTop(a, b, done, p, q)
      invariant Linked(head, tail, done, p, q)
      invariant Merging(cmp, dom, xs, ys, done, p, q)
      decreases |p| + |q|
    {
      head, tail, a, b, done, p, q := Turn(cmp, head, tail, a, b, dom, xs, ys, done, p, q);
    }
    if a == null {
      merged := done + q;
      MergingDone(cmp, dom, xs, ys, done, q);
    } else {
      merged := done + p;
      MergingDone(cmp, dom, xs, ys, done, p);
    }
  }

  // ----- the list of pending lists -----

  /** The pending lists and the rest of the input have no node in common; all nodes are in dom. */
  ghost predicate Separate(lists: seq<seq<Node>>, rest: seq<Node>, dom: set<Node>) {
    && (forall m | 0 <= m < |lists| :: lists[m] != [] && NoDup(lists[m]) && S.Within(lists[m], dom) && Apart(lists[m], rest))
    && (forall m, n | 0 <= m < n < |lists| :: Apart(lists[m], lists[n]))
    && NoDup(rest) && S.Within(rest, dom)
  }

  ghost predicate Chains(lists: seq<seq<Node>>, rest: seq<Node>, dom: set<Node>)
    requires Separate(lists, rest, dom)
    reads dom`next
  {
    (forall m | 0 <= m < |lists| :: Chain(lists[m])) && Chain(rest)
  }

  ghost function Heads(lists: seq<seq<Node>>): (heads: seq<Node>)
    requires forall m | 0 <= m < |lists| :: lists[m] != []
    ensures |heads| == |lists| && forall m | 0 <= m < |lists| :: heads[m] == lists[m][0]
  {
    seq(|lists|, m requires 0 <= m < |lists| => lists[m][0])
  }

  /** pending is the first of heads, which are linked through prev and null-terminated. */
  ghost predicate Stacked(pending: Node?, heads: seq<Node>)
    reads heads`prev
  {
    && pending == (if heads == [] then null else heads[0])
    && (forall i {:trigger heads[i].prev} | 0 <= i < |heads| - 1 :: heads[i].prev == heads[i + 1])
    && (heads != [] ==> heads[|heads| - 1].prev == null)
  }

  lemma HeadsApart(lists: seq<seq<Node>>, rest: seq<Node>, dom: set<Node>)
    requires Separate(lists, rest, dom)
    ensures NoDup(Heads(lists)) && S.Within(Heads(lists), dom)
  {
    var heads := Heads(lists);
    forall i | 0 <= i < |heads| ensures heads[i] in dom {
      assert heads[i] in lists[i];
    }
    forall i, j | 0 <= i < j < |heads| ensures heads[i] != heads[j] {
      assert heads[i] in lists[i] && heads[j] in lists[j];
    }
  }

  lemma SeparateMerge(lists: seq<seq<Node>>, rest: seq<Node>, dom: set<Node>, k: nat, merged: seq<Node>)
    requires Separate(lists, rest, dom) && k + 1 < |lists|
    requires merged != [] && NoDup(merged)
    requires forall x | x in merged :: x in lists[k + 1] || x in lists[k]
    ensures Separate(lists[..k] + [merged] + lists[k + 2..], rest, dom)
  {
    var out := lists[..k] + [merged] + lists[k + 2..];
    assert forall m | 0 <= m < k :: out[m] == lists[m];
    assert forall m | k < m < |out| :: out[m] == lists[m + 1];
  }

  /** Lines 221-223: the merged list, headed by m, takes the place of the two it was made from. */
  method Install(pending0: Node?, last: Node?, m: Node, b: Node, ghost heads: seq<Node>, ghost k: nat)
    returns (pending: Node?)
    requires k + 1 < |heads| && Stacked(pending0, heads) && b == heads[k + 1]
    requires last == if k == 0 then null else heads[k - 1]
    requires NoDup(heads[..k] + [m] + heads[k + 2..])
    modifies m`prev, (if last == null then {} else {last})`prev
    ensures Stacked(pending, heads[..k] + [m] + heads[k + 2..])
  {
    ghost var out := heads[..k] + [m] + heads[k + 2..];
    assert forall i | 0 <= i < k :: out[i] == heads[i];
    assert forall i | k < i < |out| :: out[i] == heads[i + 1];
    assert b.prev == if k + 2 < |heads| then heads[k + 2] else null;
    pending := pending0;
    m.prev := b.prev;
    if last == null {
      pending := m;
    } else {
      last.prev := m;
    }
    forall i | 0 <= i < |out| - 1 ensures out[i].prev == out[i + 1] {
      if i > k {
        assert out[i] == heads[i + 1] && old(heads[i + 1].prev) == heads[i + 2];
        assert out[i] != out[k] && (k > 0 ==> out[i] != out[k - 1]);
      } else if i < k - 1 {
        assert old(heads[i].prev) == heads[i + 1];
        assert out[i] != out[k] && out[i] != out[k - 1];
      }
    }
    assert k + 2 < |heads| ==> out[|out| - 1] == heads[|heads| - 1] && out[|out| - 1] != out[k];
    assert k > 0 ==> out[|out| - 1] != out[k - 1];
  }

  lemma {:induction false} LowOnesWithin(n: nat, z: nat)
    ensures S.LowOnes(n) <= |S.Shape(n, 1, z)|
    decreases n
  {
    if n % 2 == 1 {
      S.ShapeOdd(n, z);
      LowOnesWithin(n / 2, 2 * z);
    }
  }

  /** Lines 213-215: shift the low ones out of count, stepping down the pending lists. */
  method FindSlot(pending: Node?, count: nat, ghost heads: seq<Node>) returns (last: Node?, cur: Node?, bits: nat)
    requires Stacked(pending, heads) && S.LowOnes(count) <= |heads|
    ensures var k := S.LowOnes(count);
            && bits == S.HighBits(count)
            && last == (if k == 0 then null else heads[k - 1])
            && cur == (if k == |heads| then null else heads[k])
  {
    bits, last, cur := count, null, pending;
    ghost var k := 0;
    while bits % 2 == 1
      invariant k + S.LowOnes(bits) == S.LowOnes(count) && S.HighBits(bits) == S.HighBits(count)
      invariant last == (if k == 0 then null else heads[k - 1])
      invariant cur == (if k == |heads| then null else heads[k])
      decreases bits
    {
      last, cur, bits, k := cur, cur.prev, bits / 2, k + 1;
    }
  }

  /** Lines 213-224 of one round. */
  method Settle(cmp: (Node, Node) -> int, pending0: Node?, count: nat,
                ghost lists: seq<seq<Node>>, ghost rest: seq<Node>, ghost dom: set<Node>)
    returns (pending: Node?, ghost settled: seq<seq<Node>>)
    requires Separate(lists, rest, dom) && Chains(lists, rest, dom)
    requires Stacked(pending0, Heads(lists)) && S.Shaped(lists, count)
    modifies dom
    ensures settled == S.Settle(cmp, lists, count)
    ensures Separate(settled, rest, dom) && Chains(settled, rest, dom) && Stacked(pending, Heads(settled))
  {
    SlotExists(lists, count);
    var last, a, bits := FindSlot(pending0, count, Heads(lists));
    pending, settled := pending0, lists;
    if bits != 0 {
      pending, settled := MergePicked(cmp, pending0, last, a, S.LowOnes(count), lists, rest, dom);
    }
  }

  lemma SlotExists(lists: seq<seq<Node>>, count: nat)
    requires S.Shaped(lists, count)
    ensures S.LowOnes(count) <= |lists| && (S.HighBits(count) != 0 ==> S.LowOnes(count) + 1 < |lists|)
  {
    LowOnesWithin(count, 1);
    if S.HighBits(count) != 0 {
      S.PicksExist(lists, count);
    }
  }

  lemma SpliceAt(lists: seq<seq<Node>>, k: nat, merged: seq<Node>)
    requires k + 1 < |lists| && merged != [] && forall m | 0 <= m < |lists| :: lists[m] != []
    ensures var out := lists[..k] + [merged] + lists[k + 2..];
            && |out| == |lists| - 1 && out[k] == merged
            && (forall i | 0 <= i < |out| && i != k :: out[i] == lists[if i < k then i else i + 1])
            && Heads(out) == Heads(lists)[..k] + [merged[0]] + Heads(lists)[k + 2..]
  {
  }

  /** Line 220: merge pending lists k and k + 1, the older one first; prev links stay. */
  method MergePair(cmp: (Node, Node) -> int, b: Node, a: Node, ghost k: nat,
                   ghost lists: seq<seq<Node>>, ghost rest: seq<Node>, ghost dom: set<Node>)
    returns (m: Node, ghost settled: seq<seq<Node>>)
    requires Separate(lists, rest, dom) && Chains(lists, rest, dom)
    requires k + 1 < |lists| && a == lists[k][0] && b == lists[k + 1][0]
    modifies dom`next
    ensures settled == S.MergeAt(cmp, lists, k)
    ensures Separate(settled, rest, dom) && Chains(settled, rest, dom)
    ensures Heads(settled) == Heads(lists)[..k] + [m] + Heads(lists)[k + 2..]
  {
    ghost var merged;
    m, merged := Merge(cmp, b, a, lists[k + 1], lists[k]);
    assert forall i | 0 <= i < |lists| && i != k && i != k + 1 :: Chain(lists[i]);
    SpliceAt(lists, k, merged);
    SeparateMerge(lists, rest, dom, k, merged);
    settled := lists[..k] + [merged] + lists[k + 2..];
  }

  /** Lines 218-223. */
  method MergePicked(cmp: (Node, Node) -> int, pending0: Node?, last: Node?, a: Node, ghost k: nat,
                     ghost lists: seq<seq<Node>>, ghost rest: seq<Node>, ghost dom: set<Node>)
    returns (pending: Node?, ghost settled: seq<seq<Node>>)
    requires Separate(lists, rest, dom) && Chains(lists, rest, dom) && Stacked(pending0, Heads(lists))
    requires k + 1 < |lists| && a == lists[k][0] && last == if k == 0 then null else lists[k - 1][0]
    modifies dom
    ensures settled == S.MergeAt(cmp, lists, k)
    ensures Separate(settled, rest, dom) && Chains(settled, rest, dom) && Stacked(pending, Heads(settled))
  {
    ghost var heads := Heads(lists);
    assert heads[k].prev == heads[k + 1];
    HeadsApart(lists, rest, dom);
    var b := a.prev;
    var m;
    m, settled := MergePair(cmp, b, a, k, lists, rest, dom);
    pending := Restack(pending0, last, m, b, heads, k, settled, rest, dom);
  }

  /** Lines 221-223: the stack of pending lists after the merge. */
  method Restack(pending0: Node?, last: Node?, m: Node, b: Node, ghost heads: seq<Node>, ghost k: nat,
                 ghost settled: seq<seq<Node>>, ghost rest: seq<Node>, ghost dom: set<Node>)
    returns (pending: Node?)
    requires Separate(settled, rest, dom)
    requires k + 1 < |heads| && Stacked(pending0, heads) && b == heads[k + 1] && last == if k == 0 then null else heads[k - 1]
    requires Heads(settled) == heads[..k] + [m] + heads[k + 2..]
    modifies dom`prev
    ensures Stacked(pending, Heads(settled))
  {
    HeadsApart(settled, rest, dom);
    assert Heads(settled)[k] == m && (k > 0 ==> Heads(settled)[k - 1] == last);
    pending := Install(pending0, last, m, b, heads, k);
  }

  lemma SeparatePush(n: Node, lists: seq<seq<Node>>, rest: seq<Node>, dom: set<Node>)
    requires rest != [] && n == rest[0] && Separate(lists, rest, dom)
    ensures Separate([[n]] + lists, rest[1..], dom)
    ensures Heads([[n]] + lists) == [n] + Heads(lists) && n !in Heads(lists)
    ensures forall m | 0 <= m < |lists| :: n !in lists[m]
  {
    assert n in rest;
    forall m | 0 <= m < |lists| ensures Heads(lists)[m] != n {
      assert Heads(lists)[m] in lists[m];
    }
  }

  /** Lines 226-230: the first node of the input becomes a pending list of its own. */
  method PushOne(list: Node, pending: Node?, ghost lists: seq<seq<Node>>, ghost rest: seq<Node>, ghost dom: set<Node>)
    returns (tail: Node?)
    requires rest != [] && list == rest[0]
    requires Separate(lists, rest, dom) && Chains(lists, rest, dom) && Stacked(pending, Heads(lists))
    modifies list
    ensures Separate([[list]] + lists, rest[1..], dom) && Chains([[list]] + lists, rest[1..], dom)
    ensures Stacked(list, Heads([[list]] + lists))
    ensures tail == if |rest| > 1 then rest[1] else null
  {
    SeparatePush(list, lists, rest, dom);
    tail := CutFirst(list, rest);
    assert forall m | 0 <= m < |lists| :: Chain(lists[m]);
    ChainsPush(list, lists, rest[1..], dom);
    StackOne(list, pending, Heads(lists));
  }

  lemma ChainsPush(n: Node, lists: seq<seq<Node>>, rest: seq<Node>, dom: set<Node>)
    requires Separate([[n]] + lists, rest, dom) && Chain([n]) && Chain(rest) && forall m | 0 <= m < |lists| :: Chain(lists[m])
    ensures Chains([[n]] + lists, rest, dom)
  {
    forall m | 0 <= m < |[[n]] + lists| ensures Chain(([[n]] + lists)[m]) {
      if m > 0 {
        assert ([[n]] + lists)[m] == lists[m - 1];
      }
    }
  }

  method StackOne(list: Node, pending: Node?, ghost heads: seq<Node>)
    requires Stacked(pending, heads) && list !in heads
    modifies list`prev
    ensures Stacked(list, [list] + heads)
  {
    list.prev := pending;
    assert Stacked(pending, heads);
  }

  /** Lines 227-228: the first node leaves the input list. */
  method CutFirst(list: Node, ghost rest: seq<Node>) returns (tail: Node?)
    requires rest != [] && list == rest[0] && Chain(rest) && NoDup(rest)
    modifies list`next
    ensures Chain([list]) && Chain(rest[1..]) && tail == if |rest| > 1 then rest[1] else null
  {
    tail := list.next;
    list.next := null;
  }

  // ----- the final merge and the circular list -----

  /** line is linked in both directions, except beyond its ends. */
  ghost predicate TwoWay(line: seq<Node>)
    reads line
  {
    forall i {:trigger line[i].next} {:trigger line[i + 1].prev} | 0 <= i < |line| - 1 ::
      line[i].next == line[i + 1] && line[i + 1].prev == line[i]
  }

  /** A circular doubly linked list: head is no element itself. */
  ghost predicate Circular(head: Node, nodes: seq<Node>)
    reads head, nodes
  {
    var line := [head] + nodes;
    NoDup(line) && TwoWay(line) && line[|line| - 1].next == head && head.prev == line[|line| - 1]
  }

  /** `b->prev = tail` for the next node of the final list, which tail already points to. */
  method HookBack(tail: Node, n: Node, ghost line: seq<Node>, ghost p: seq<Node>)
    returns (rest: Node?)
    requires line != [] && tail == line[|line| - 1] && TwoWay(line) && tail.next == n
    requires p != [] && n == p[0] && Chain(p) && NoDup(line) && Apart(line, p)
    modifies n`prev
    ensures TwoWay(line + [n]) && rest == n.next == (if |p| > 1 then p[1] else null)
  {
    assert n in p;
    n.prev := tail;
    rest := n.next;
  }

  /** Lines 74-93: hang what is left onto tail, restore its prev links and close the circle. */
  method CloseCircle(head: Node, tail0: Node, b0: Node, ghost done: seq<Node>, ghost rest: seq<Node>)
    requires tail0 == ([head] + done)[|done|] && TwoWay([head] + done) && NoDup([head] + done)
    requires rest != [] && b0 == rest[0] && Chain(rest) && NoDup(rest) && Apart([head] + done, rest)
    modifies {head, tail0} + set x | x in rest
    ensures Circular(head, done + rest)
  {
    var tail: Node, b: Node? := tail0, b0;
    ghost var line, left := [head] + done, rest;
    assert tail in line && tail !in rest;
    tail.next := b;
    while b != null
      invariant line + left == [head] + done + rest && line != [] && line[0] == head
      invariant tail == line[|line| - 1] && TwoWay(line) && NoDup(line)
      invariant b == if left == [] then null else left[0]
      invariant tail.next == b
      invariant Chain(left) && NoDup(left) && Apart(line, left) && S.Within(left, set x | x in rest)
      decreases |left|
    {
      var n: Node := b;
      assert n in left;
      b := HookBack(tail, n, line, left);
      assert line + left == line + [n] + left[1..];
      tail, line, left := n, line + [n], left[1..];
    }
    assert line == line + left == [head] + (done + rest);
    tail.next := head;
    head.prev := tail;
  }

  ghost predicate FinalLinks(head: Node, tail: Node, done: seq<Node>, p: seq<Node>, q: seq<Node>)
    reads head, done, p, q
  {
    && tail == ([head] + done)[|done|] && TwoWay([head] + done)
    && Chain(p) && Chain(q) && Split([head] + done, p, q)
  }

  /** Lines 56-59 and 63-66: n, the head of p, is linked after tail in both directions. */
  method Hook(head: Node, tail: Node, n: Node, ghost done: seq<Node>, ghost p: seq<Node>, ghost q: seq<Node>)
    returns (rest: Node?)
    requires FinalLinks(head, tail, done, p, q) && p != [] && n == p[0]
    modifies tail`next, n`prev
    ensures FinalLinks(head, n, done + [n], p[1..], q)
    ensures rest == if |p| > 1 then p[1] else null
  {
    ghost var line := [head] + done;
    assert tail in line && n in p;
    SplitMove(line, p, q);
    assert [head] + (done + [n]) == line + [n];
    tail.next := n;
    rest := HookBack(tail, n, line, p);
  }

  lemma SplitSwap(done: seq<Node>, p: seq<Node>, q: seq<Node>)
    requires Split(done, p, q)
    ensures Split(done, q, p)
  {
  }

  /** The body of merge_final's first loop (lines 54-71). */
  method FinalTurn(cmp: (Node, Node) -> int, head: Node, tail: Node, a: Node, b: Node, ghost dom: set<Node>,
                   ghost xs: seq<Node>, ghost ys: seq<Node>, ghost done: seq<Node>, ghost p: seq<Node>, ghost q: seq<Node>)
    returns (last: Node, a': Node?, b': Node?, ghost done': seq<Node>, ghost p': seq<Node>, ghost q': seq<Node>)
    requires AtTop(a, b, done, p, q) && FinalLinks(head, tail, done, p, q) && Merging(cmp, dom, xs, ys, done, p, q)
    modifies {head} + dom
    ensures AtTop(a', b', done', p', q') && FinalLinks(head, last, done', p', q') && Merging(cmp, dom, xs, ys, done', p', q')
    ensures |p'| + |q'| < |p| + |q|
  {
    MergingTake(cmp, dom, xs, ys, done, p, q);
    a', b', p', q' := a, b, p, q;
    assert a in p && b in q && (tail == head || tail in done);
    if cmp(a, b) <= 0 {
      a' := Hook(head, tail, a, done, p, q);
      last, done', p' := a, done + [a], p[1..];
    } else {
      SplitSwap([head] + done, p, q);
      b' := Hook(head, tail, b, done, q, p);
      last, done', q' := b, done + [b], q[1..];
      SplitSwap([head] + done', q', p);
    }
  }

  /** merge_final (lines 47-94): the same merge, with head in front and prev links restored. */
  method MergeFinal(cmp: (Node, Node) -> int, head: Node, a0: Node, b0: Node,
                    ghost xs: seq<Node>, ghost ys: seq<Node>, ghost dom: set<Node>)
    returns (ghost merged: seq<Node>)
    requires xs != [] && ys != [] && xs[0] == a0 && ys[0] == b0
    requires Chain(xs) && Chain(ys) && Split([head], xs, ys) && S.Within(xs, dom) && S.Within(ys, dom)
    modifies {head} + dom
    ensures merged == S.Merge(cmp, xs, ys)
    ensures Circular(head, merged)
  {
    var a: Node?, b: Node?, tail := a0, b0, head;
    ghost var done: seq<Node>, p, q := [], xs, ys;
    assert [head] + done == [head];
    while a != null && b != null
      invariant AtTop(a, b, done, p, q)
      invariant FinalLinks(head, tail, done, p, q)
      invariant Merging(cmp, dom, xs, ys, done, p, q)
      decreases |p| + |q|
    {
      tail, a, b, done, p, q := FinalTurn(cmp, head, tail, a, b, dom, xs, ys, done, p, q);
    }
    assert tail == head || tail in done;
    if a == null {
      merged := done + q;
      MergingDone(cmp, dom, xs, ys, done, q);
      CloseCircle(head, tail, b, done, q);
    } else {
      merged := done + p;
      MergingDone(cmp, dom, xs, ys, done, p);
      CloseCircle(head, tail, a, done, p);
    }
  }

  // ----- list_sort -----

  lemma SeparateCollapse(lists: seq<seq<Node>>, rest: seq<Node>, dom: set<Node>, merged: seq<Node>)
    requires lists != [] && Separate(lists, rest, dom) && NoDup(merged)
    requires forall x | x in merged :: x in lists[0] || x in rest
    ensures Separate(lists[1..], merged, dom) && Heads(lists[1..]) == Heads(lists)[1..]
  {
    var left := lists[1..];
    forall m | 0 <= m < |left| ensures Apart(left[m], merged) {
      assert Apart(lists[0], lists[m + 1]) && Apart(lists[m + 1], rest);
    }
  }

  /** Line 242: the list merged so far absorbs the next pending one, whose elements are older. */
  method Absorb(cmp: (Node, Node) -> int, pending: Node, list0: Node, ghost left: seq<seq<Node>>, ghost newer: seq<Node>, ghost dom: set<Node>)
    returns (list: Node, ghost merged: seq<Node>)
    requires Separate(left, newer, dom) && Chains(left, newer, dom)
    requires left != [] && newer != [] && pending == left[0][0] && list0 == newer[0]
    modifies dom`next
    ensures merged == S.Merge(cmp, left[0], newer) && merged != [] && list == merged[0]
    ensures Separate(left[1..], merged, dom) && Chains(left[1..], merged, dom)
    ensures Heads(left[1..]) == Heads(left)[1..]
  {
    list, merged := Merge(cmp, pending, list0, left[0], newer);
    assert forall i | 1 <= i < |left| :: Chain(left[i]);
    SeparateCollapse(left, newer, dom, merged);
  }

  lemma StackedTail(pending: Node?, heads: seq<Node>)
    requires heads != [] && Stacked(pending, heads)
    ensures Stacked(heads[0].prev, heads[1..])
    ensures heads[0].prev == null <==> |heads| == 1
  {
  }

  /** One turn of the loop at lines 237-244. */
  method AbsorbNext(cmp: (Node, Node) -> int, pending0: Node, list0: Node, ghost left: seq<seq<Node>>, ghost newer: seq<Node>, ghost dom: set<Node>)
    returns (list: Node, pending: Node, ghost merged: seq<Node>)
    requires left != [] && newer != [] && list0 == newer[0] && pending0.prev != null
    requires Separate(left, newer, dom) && Chains(left, newer, dom) && Stacked(pending0, Heads(left))
    modifies dom`next
    ensures left[1..] != [] && merged != [] && list == merged[0]
    ensures Separate(left[1..], merged, dom) && Chains(left[1..], merged, dom) && Stacked(pending, Heads(left[1..]))
    ensures S.Collapse(cmp, newer, left) == S.Collapse(cmp, merged, left[1..])
  {
    StackedTail(pending0, Heads(left));
    pending := pending0.prev;
    ghost var heads := Heads(left);
    assert Stacked(pending, heads[1..]) && pending0 == left[0][0];
    list, merged := Absorb(cmp, pending0, list0, left, newer, dom);
    assert Stacked(pending, heads[1..]);
  }

  /** Lines 237-244: merge the pending lists into newer, but leave the last one. */
  method AbsorbAll(cmp: (Node, Node) -> int, pending0: Node, list0: Node,
                   ghost lists: seq<seq<Node>>, ghost run: seq<Node>, ghost dom: set<Node>)
    returns (list: Node, pending: Node, ghost older: seq<Node>, ghost newer: seq<Node>)
    requires lists != [] && run != [] && list0 == run[0]
    requires Separate(lists, run, dom) && Chains(lists, run, dom) && Stacked(pending0, Heads(lists))
    modifies dom`next
    ensures older != [] && newer != [] && pending == older[0] && list == newer[0]
    ensures Separate([older], newer, dom) && Chain(older) && Chain(newer)
    ensures S.Collapse(cmp, newer, [older]) == S.Collapse(cmp, run, lists)
  {
    ghost var left := lists;
    list, newer, pending := list0, run, pending0;
    while pending.prev != null
      invariant left != [] && newer != [] && list == newer[0]
      invariant Separate(left, newer, dom) && Chains(left, newer, dom) && Stacked(pending, Heads(left))
      invariant S.Collapse(cmp, run, lists) == S.Collapse(cmp, newer, left)
      decreases |left|
    {
      list, pending, newer := AbsorbNext(cmp, pending, list, left, newer, dom);
      left := left[1..];
    }
    OneLeft(pending, left, newer, dom);
    older := left[0];
  }

  lemma OneLeft(pending: Node, left: seq<seq<Node>>, newer: seq<Node>, dom: set<Node>)
    requires left != [] && Separate(left, newer, dom) && Chains(left, newer, dom) && Stacked(pending, Heads(left)) && pending.prev == null
    ensures left == [left[0]] && left[0] != [] && pending == left[0][0] && Chain(left[0]) && Chain(newer)
  {
    StackedTail(pending, Heads(left));
    assert Heads(left)[0] == left[0][0];
  }

  /** Lines 234-244: merge all pending lists but the last, from the newest on. */
  method Collapse(cmp: (Node, Node) -> int, pending0: Node, ghost lists: seq<seq<Node>>, ghost dom: set<Node>)
    returns (list: Node, pending: Node, ghost older: seq<Node>, ghost newer: seq<Node>)
    requires |lists| >= 2 && Separate(lists, [], dom) && Chains(lists, [], dom) && Stacked(pending0, Heads(lists))
    modifies dom`next
    ensures older != [] && newer != [] && pending == older[0] && list == newer[0]
    ensures Separate([older], newer, dom) && Chain(older) && Chain(newer)
    ensures S.Merge(cmp, older, newer) == S.Collapse(cmp, lists[0], lists[1..])
  {
    StackedTail(pending0, Heads(lists));
    SeparateCollapse(lists, [], dom, lists[0]);
    list, pending, older, newer := AbsorbAll(cmp, pending0.prev, pending0, lists[1..], lists[0], dom);
  }

  /** Lines 188-189: the circular list becomes a null-terminated one. */
  method OpenCircle(head: Node, ghost nodes: seq<Node>)
    requires Circular(head, nodes) && nodes != []
    modifies set x | x in nodes
    ensures Chain(nodes) && head.next == nodes[0]
  {
    ghost var line := [head] + nodes;
    assert line[0].next == line[1] == nodes[0] && line[|nodes|] == nodes[|nodes| - 1];
    assert forall i | 0 <= i < |nodes| :: nodes[i] == line[i + 1];
    assert head.prev in nodes;
    head.prev.next := null;
  }

  /** The state of list_sort at the top of a round: done has been moved to the pending lists. */
  ghost predicate AtRound(cmp: (Node, Node) -> int, nodes: seq<Node>, count: nat,
                          done: seq<Node>, lists: seq<seq<Node>>, rest: seq<Node>) {
    && nodes == done + rest && count == |done|
    && lists == S.Rounds(cmp, done) && S.Shaped(lists, count)
  }

  lemma NextRound(cmp: (Node, Node) -> int, nodes: seq<Node>, count: nat,
                  done: seq<Node>, lists: seq<seq<Node>>, rest: seq<Node>, settled: seq<seq<Node>>)
    requires AtRound(cmp, nodes, count, done, lists, rest) && rest != []
    requires settled == S.Settle(cmp, lists, count)
    ensures AtRound(cmp, nodes, count + 1, done + [rest[0]], [[rest[0]]] + settled, rest[1..])
  {
    S.RoundsSnoc(cmp, done, rest[0]);
    S.RoundShaped(cmp, lists, count, rest[0]);
  }

  /** The main loop (lines 209-232). */
  method MakeRuns(cmp: (Node, Node) -> int, list0: Node, ghost nodes: seq<Node>, ghost dom: set<Node>)
    returns (pending: Node?, ghost lists: seq<seq<Node>>)
    requires nodes != [] && list0 == nodes[0] && Chain(nodes) && NoDup(nodes) && S.Within(nodes, dom)
    modifies dom
    ensures lists == S.Rounds(cmp, nodes) && S.Shaped(lists, |nodes|)
    ensures Separate(lists, [], dom) && Chains(lists, [], dom) && Stacked(pending, Heads(lists))
  {
    var list: Node?, count := list0, 0;
    pending, lists := null, [];
    ghost var done: seq<Node>, rest := [], nodes;
    while list != null
      invariant AtRound(cmp, nodes, count, done, lists, rest)
      invariant list == if rest == [] then null else rest[0]
      invariant Separate(lists, rest, dom) && Chains(lists, rest, dom) && Stacked(pending, Heads(lists))
      decreases |rest|
    {
      ghost var settled;
      pending, settled := Settle(cmp, pending, count, lists, rest, dom);
      var n: Node := list;
      list := PushOne(n, pending, settled, rest, dom);
      NextRound(cmp, nodes, count, done, lists, rest, settled);
      lists, done, rest, pending, count := [[n]] + settled, done + [n], rest[1..], n, count + 1;
    }
    assert done == nodes;
  }

  lemma HeadSplit(head: Node, older: seq<Node>, newer: seq<Node>, dom: set<Node>)
    requires Separate([older], newer, dom) && head !in dom
    ensures Split([head], older, newer) && S.Within(older, dom) && S.Within(newer, dom)
  {
    assert [older][0] == older;
  }

  lemma CircleParts(head: Node, nodes: seq<Node>)
    requires NoDup([head] + nodes)
    ensures NoDup(nodes) && head !in nodes
  {
    var line := [head] + nodes;
    forall i | 0 <= i < |nodes| ensures nodes[i] != head {
      assert line[0] != line[i + 1];
    }
    forall i, j | 0 <= i < j < |nodes| ensures nodes[i] != nodes[j] {
      assert line[i + 1] != line[j + 1];
    }
  }

  /** The list through sorted holds the nodes of the list through nodes; when cmp orders them it is sorted, and
      nodes that cmp does not distinguish keep their order. */
  ghost predicate StablySorted(cmp: (Node, Node) -> int, nodes: seq<Node>, sorted: seq<Node>) {
    && multiset(sorted) == multiset(nodes)
    && (S.PreorderOn(cmp, set x | x in nodes) ==>
          S.Sorted(cmp, sorted) && forall c | c in nodes :: S.Ties(cmp, c, sorted) == S.Ties(cmp, c, nodes))
  }

  lemma SortListIsStable(cmp: (Node, Node) -> int, nodes: seq<Node>)
    ensures StablySorted(cmp, nodes, S.SortList(cmp, nodes))
  {
    S.SortListPermutes(cmp, nodes);
    var dom := set x | x in nodes;
    if S.PreorderOn(cmp, dom) {
      S.SortListIsStableSort(cmp, nodes, dom);
      S.StableSortIsStableSort(cmp, nodes, dom);
    }
  }

  /** list_sort (lines 180-247). */
  method ListSort(cmp: (Node, Node) -> int, head: Node, ghost nodes: seq<Node>) returns (ghost sorted: seq<Node>)
    requires Circular(head, nodes)
    modifies {head} + set x | x in nodes
    ensures Circular(head, sorted) && StablySorted(cmp, nodes, sorted)
  {
    SortListIsStable(cmp, nodes);
    sorted := SortLinks(cmp, head, nodes);
  }

  /** The links after list_sort are those of the sort on sequences. */
  method SortLinks(cmp: (Node, Node) -> int, head: Node, ghost nodes: seq<Node>) returns (ghost sorted: seq<Node>)
    requires Circular(head, nodes)
    modifies {head} + set x | x in nodes
    ensures Circular(head, sorted) && sorted == S.SortList(cmp, nodes)
  {
    ghost var line := [head] + nodes;
    assert nodes != [] ==> line[0].next == line[1] == nodes[0] && line[|nodes|] == nodes[|nodes| - 1];
    assert |nodes| >= 2 ==> line[1] != line[|nodes|];
    if head.next == head.prev {
      return nodes;
    }
    CircleParts(head, nodes);
    OpenCircle(head, nodes);
    sorted := SortChain(cmp, head, nodes, set x | x in nodes);
  }

  /** Lines 191-246: the null-terminated list behind head becomes the sorted circular one. */
  method SortChain(cmp: (Node, Node) -> int, head: Node, ghost nodes: seq<Node>, ghost dom: set<Node>) returns (ghost sorted: seq<Node>)
    requires |nodes| >= 2 && head !in dom && head.next == nodes[0] && Chain(nodes) && NoDup(nodes) && S.Within(nodes, dom)
    modifies {head} + dom
    ensures Circular(head, sorted) && sorted == S.SortList(cmp, nodes)
  {
    var pending;
    ghost var lists;
    pending, lists := MakeRuns(cmp, head.next, nodes, dom);
    S.ShapeNonEmpty(|nodes|);
    var list, last;
    ghost var older, newer;
    list, last, older, newer := Collapse(cmp, pending, lists, dom);
    HeadSplit(head, older, newer, dom);
    sorted := MergeFinal(cmp, head, last, list, older, newer, dom);
  }
}

/** The merge sort of utils/udev-rules/list_sort.c on plain sequences.

    The pending sublists are a sequence of sequences, newest first.  The bits of
    the element count decide which two neighbours are merged in each round; no
    sublist length is ever inspected.  Everything the heap program in ListSort
    relies on is proved here: which sublists exist in each round, that the
    result is a stable sort, and how balanced the merges are. */
module StableMerge {

  // ----- the reference: stable insertion sort -----

  /** Puts x in front of the first element it need not follow. */
  function Insert<T>(cmp: (T, T) -> int, x: T, t: seq<T>): seq<T> {
    if t == [] || cmp(x, t[0]) <= 0 then [x] + t
    else [t[0]] + Insert(cmp, x, t[1..])
  }

  function StableSort<T>(cmp: (T, T) -> int, s: seq<T>): seq<T> {
    if s == [] then [] else Insert(cmp, s[0], StableSort(cmp, s[1..]))
  }

  /** cmp orders dom: x may stay before y, or y before x, and "may stay before" is transitive. */
  ghost predicate PreorderOn<T>(cmp: (T, T) -> int, dom: set<T>) {
    && (forall x, y | x in dom && y in dom :: cmp(x, y) <= 0 || cmp(y, x) <= 0)
    && (forall x, y, z | x in dom && y in dom && z in dom :: cmp(x, y) <= 0 && cmp(y, z) <= 0 ==> cmp(x, z) <= 0)
  }

  ghost predicate Within<T>(s: seq<T>, dom: set<T>) {
    forall x | x in s :: x in dom
  }

  ghost predicate Sorted<T>(cmp: (T, T) -> int, s: seq<T>) {
    forall i, j | 0 <= i < j < |s| :: cmp(s[i], s[j]) <= 0
  }

  /** The elements of s that cmp does not distinguish from x, in order. */
  ghost function Ties<T>(cmp: (T, T) -> int, x: T, s: seq<T>): seq<T> {
    if s == [] then []
    else (if cmp(x, s[0]) <= 0 && cmp(s[0], x) <= 0 then [s[0]] else []) + Ties(cmp, x, s[1..])
  }

  lemma {:induction false} InsertPermutes<T>(cmp: (T, T) -> int, x: T, t: seq<T>)
    ensures multiset(Insert(cmp, x, t)) == multiset{x} + multiset(t)
  {
    if t != [] && cmp(x, t[0]) > 0 {
      InsertPermutes(cmp, x, t[1..]);
      assert t == [t[0]] + t[1..];
    }
  }

  lemma {:induction false} StableSortPermutes<T>(cmp: (T, T) -> int, s: seq<T>)
    ensures multiset(StableSort(cmp, s)) == multiset(s)
  {
    if s != [] {
      StableSortPermutes(cmp, s[1..]);
      InsertPermutes(cmp, s[0], StableSort(cmp, s[1..]));
      assert s == [s[0]] + s[1..];
    }
  }

  lemma StableSortWithin<T>(cmp: (T, T) -> int, s: seq<T>, dom: set<T>)
    requires Within(s, dom)
    ensures Within(StableSort(cmp, s), dom)
  {
    StableSortPermutes(cmp, s);
    forall x | x in StableSort(cmp, s) ensures x in dom {
      assert x in multiset(StableSort(cmp, s));
      assert x in s;
    }
  }

  lemma {:induction false} InsertMembers<T>(cmp: (T, T) -> int, x: T, t: seq<T>)
    ensures forall y | y in Insert(cmp, x, t) :: y == x || y in t
  {
    if t != [] && cmp(x, t[0]) > 0 {
      InsertMembers(cmp, x, t[1..]);
    }
  }

  lemma SortedCons<T>(cmp: (T, T) -> int, x: T, t: seq<T>)
    requires Sorted(cmp, t) && forall y | y in t :: cmp(x, y) <= 0
    ensures Sorted(cmp, [x] + t)
  {
  }

  lemma {:induction false} InsertSorts<T>(cmp: (T, T) -> int, x: T, t: seq<T>, dom: set<T>)
    requires PreorderOn(cmp, dom) && x in dom && Within(t, dom) && Sorted(cmp, t)
    ensures Sorted(cmp, Insert(cmp, x, t))
  {
    if t != [] {
      var t0, rest := t[0], t[1..];
      assert t == [t0] + rest;
      assert t0 in t && Sorted(cmp, rest);
      assert forall y | y in rest :: cmp(t0, y) <= 0;
      if cmp(x, t0) <= 0 {
        SortedCons(cmp, x, t);
      } else {
        InsertSorts(cmp, x, rest, dom);
        InsertMembers(cmp, x, rest);
        SortedCons(cmp, t0, Insert(cmp, x, rest));
      }
    }
  }

  lemma {:induction false} InsertTies<T>(cmp: (T, T) -> int, c: T, x: T, t: seq<T>, dom: set<T>)
    requires PreorderOn(cmp, dom) && c in dom && x in dom && Within(t, dom)
    ensures Ties(cmp, c, Insert(cmp, x, t)) == Ties(cmp, c, [x] + t)
  {
    if t != [] && cmp(x, t[0]) > 0 {
      assert t[0] in t;
      InsertTies(cmp, c, x, t[1..], dom);
      assert ([x] + t)[1..] == t && ([x] + t[1..])[1..] == t[1..];
      assert Insert(cmp, x, t)[1..] == Insert(cmp, x, t[1..]);
    }
  }

  /** StableSort meets the three promises of a stable sort. */
  lemma {:induction false} StableSortIsStableSort<T>(cmp: (T, T) -> int, s: seq<T>, dom: set<T>)
    requires PreorderOn(cmp, dom) && Within(s, dom)
    ensures multiset(StableSort(cmp, s)) == multiset(s)
    ensures Sorted(cmp, StableSort(cmp, s))
    ensures forall c | c in dom :: Ties(cmp, c, StableSort(cmp, s)) == Ties(cmp, c, s)
  {
    if s != [] {
      var t := StableSort(cmp, s[1..]);
      StableSortIsStableSort(cmp, s[1..], dom);
      StableSortPermutes(cmp, s);
      StableSortWithin(cmp, s[1..], dom);
      InsertSorts(cmp, s[0], t, dom);
      forall c | c in dom ensures Ties(cmp, c, StableSort(cmp, s)) == Ties(cmp, c, s) {
        InsertTies(cmp, c, s[0], t, dom);
        assert ([s[0]] + t)[1..] == t;
      }
    }
  }

  // ----- merging -----

  /** Takes from a unless cmp puts b first; a holds the older elements. */
  function Merge<T>(cmp: (T, T) -> int, a: seq<T>, b: seq<T>): (merged: seq<T>)
    ensures |merged| == |a| + |b|
    decreases |a| + |b|
  {
    if a == [] then b
    else if b == [] then a
    else if cmp(a[0], b[0]) <= 0 then [a[0]] + Merge(cmp, a[1..], b)
    else [b[0]] + Merge(cmp, a, b[1..])
  }

  lemma {:induction false} MergePermutes<T>(cmp: (T, T) -> int, a: seq<T>, b: seq<T>)
    ensures multiset(Merge(cmp, a, b)) == multiset(a) + multiset(b)
    decreases |a| + |b|
  {
    if a != [] && b != [] {
      if cmp(a[0], b[0]) <= 0 {
        assert a == [a[0]] + a[1..];
        MergePermutes(cmp, a[1..], b);
      } else {
        assert b == [b[0]] + b[1..];
        MergePermutes(cmp, a, b[1..]);
      }
    }
  }

  /** Inserting an older element before or after a merge is the same. */
  lemma {:induction false} MergeInsert<T>(cmp: (T, T) -> int, x: T, u: seq<T>, v: seq<T>, dom: set<T>)
    requires PreorderOn(cmp, dom) && x in dom && Within(u, dom) && Within(v, dom)
    ensures Merge(cmp, Insert(cmp, x, u), v) == Insert(cmp, x, Merge(cmp, u, v))
    decreases |u| + |v|
  {
    if v == [] {
    } else if u == [] {
      if cmp(x, v[0]) > 0 {
        MergeInsert(cmp, x, u, v[1..], dom);
      } else {
        assert [x][1..] == u;
      }
    } else {
      assert u[0] in u && v[0] in v;
      var xu := Insert(cmp, x, u);
      if cmp(xu[0], v[0]) > 0 {
        MergeInsert(cmp, x, u, v[1..], dom);
      } else if cmp(x, u[0]) <= 0 {
        assert xu[1..] == u;
      } else {
        assert xu[1..] == Insert(cmp, x, u[1..]);
        MergeInsert(cmp, x, u[1..], v, dom);
      }
    }
  }

  /** Merging two sorted runs sorts the concatenation, older run first. */
  lemma {:induction false} MergeOfSorts<T>(cmp: (T, T) -> int, a: seq<T>, b: seq<T>, dom: set<T>)
    requires PreorderOn(cmp, dom) && Within(a, dom) && Within(b, dom)
    ensures Merge(cmp, StableSort(cmp, a), StableSort(cmp, b)) == StableSort(cmp, a + b)
  {
    if a == [] {
      assert a + b == b;
    } else {
      assert (a + b)[1..] == a[1..] + b;
      MergeOfSorts(cmp, a[1..], b, dom);
      StableSortPermutes(cmp, a[1..]);
      StableSortWithin(cmp, a[1..], dom);
      StableSortPermutes(cmp, b);
      StableSortWithin(cmp, b, dom);
      MergeInsert(cmp, a[0], StableSort(cmp, a[1..]), StableSort(cmp, b), dom);
    }
  }

  // ----- the bits of count -----

  /** How often the loop at line 214 shifts a set bit out of count. */
  function LowOnes(n: nat): nat {
    if n % 2 == 1 then 1 + LowOnes(n / 2) else 0
  }

  /** What is left of count after that loop. */
  function HighBits(n: nat): nat {
    if n % 2 == 1 then HighBits(n / 2) else n
  }

  /** z doubled k times; Doubled(1, k) is 2^k. */
  function Doubled(z: nat, k: nat): nat
    decreases k
  {
    if k == 0 then z else Doubled(2 * z, k - 1)
  }

  /** How many sublists of the weight of n's lowest bit are pending.  n is count
      without its lower bits and carry the bit below: the table at lines 159-164. */
  function Copies(n: nat, carry: nat): nat {
    if n % 2 == 1 then carry else 1 + carry
  }

  function Repeat(m: nat, z: nat): seq<nat> {
    if m == 0 then [] else [z] + Repeat(m - 1, z)
  }

  /** The sizes of the pending sublists, newest first; z is the weight of n's lowest bit. */
  function Shape(n: nat, carry: nat, z: nat): seq<nat> {
    if n == 0 then []
    else Repeat(Copies(n, carry), z) + Shape(n / 2, n % 2, 2 * z)
  }

  function Sum(s: seq<nat>): nat {
    if s == [] then 0 else s[0] + Sum(s[1..])
  }

  lemma {:induction false} SumAppend(s: seq<nat>, t: seq<nat>)
    ensures Sum(s + t) == Sum(s) + Sum(t)
  {
    if s == [] {
      assert s + t == t;
    } else {
      assert (s + t)[1..] == s[1..] + t;
      SumAppend(s[1..], t);
    }
  }

  lemma {:induction false} SumRepeat(m: nat, z: nat)
    ensures Sum(Repeat(m, z)) == m * z
  {
    if m > 0 {
      SumRepeat(m - 1, z);
      assert Repeat(m, z)[1..] == Repeat(m - 1, z);
      assert m * z == (m - 1) * z + z;
    }
  }

  /** A shape holds n - 1 + carry elements per unit of weight; for Shape(count, 1, 1) that is count. */
  lemma {:induction false} ShapeSum(n: nat, carry: nat, z: nat)
    requires n > 0
    ensures Sum(Shape(n, carry, z)) == (n - 1 + carry) * z
  {
    var h := n / 2;
    SumAppend(Repeat(Copies(n, carry), z), Shape(h, n % 2, 2 * z));
    SumRepeat(Copies(n, carry), z);
    if h > 0 {
      ShapeSum(h, n % 2, 2 * z);
      Halve(n, carry, z);
    }
  }

  lemma Halve(n: nat, carry: nat, z: nat)
    requires n > 1
    ensures Copies(n, carry) * z + (n / 2 - 1 + n % 2) * (2 * z) == (n - 1 + carry) * z
  {
    var upper := n / 2 - 1 + n % 2;
    assert upper * (2 * z) == (2 * upper) * z;
    assert Copies(n, carry) + 2 * upper == n - 1 + carry;
    assert (Copies(n, carry) + 2 * upper) * z == Copies(n, carry) * z + (2 * upper) * z;
  }

  lemma ShapeOdd(n: nat, z: nat)
    requires n % 2 == 1
    ensures Shape(n, 1, z) == [z] + Shape(n / 2, 1, 2 * z)
    ensures Shape(n + 1, 0, z) == [z] + Shape(n / 2 + 1, 0, 2 * z)
  {
    assert (n + 1) / 2 == n / 2 + 1;
    assert Repeat(1, z) == [z];
  }

  lemma ShapeCarry(n: nat, z: nat)
    requires n > 0
    ensures Shape(n, 1, z) == [z] + Shape(n, 0, z)
  {
    var m, rest := Copies(n, 0), Shape(n / 2, n % 2, 2 * z);
    assert Repeat(m + 1, z) == [z] + Repeat(m, z);
    assert ([z] + Repeat(m, z)) + rest == [z] + (Repeat(m, z) + rest);
  }

  lemma ShapeEven(n: nat, z: nat)
    requires n % 2 == 0 && n > 0
    ensures Shape(n, 1, z) == [z, z] + Shape(n / 2, 0, 2 * z)
    ensures Shape(n + 1, 0, z) == [2 * z] + Shape(n / 2, 0, 2 * z)
  {
    assert (n + 1) / 2 == n / 2 && (n + 1) % 2 == 1;
    assert Repeat(2, z) == [z] + Repeat(1, z) == [z, z];
    assert Shape(n + 1, 0, z) == Repeat(0, z) + Shape(n / 2, 1, 2 * z);
    ShapeCarry(n / 2, 2 * z);
  }

  /** What one round does to the sizes: the two sublists at index k are joined. */
  function JoinAt(sizes: seq<nat>, k: nat): seq<nat>
    requires k + 1 < |sizes|
  {
    sizes[..k] + [sizes[k + 1] + sizes[k]] + sizes[k + 2..]
  }

  /** The sublists picked when bits is non-zero exist and both have size z doubled
      k times; joining them gives the shape of the next count. */
  ghost predicate PicksJoin(sizes: seq<nat>, z: nat, k: nat, next: seq<nat>) {
    && k + 1 < |sizes|
    && sizes[k] == sizes[k + 1] == Doubled(z, k)
    && next == JoinAt(sizes, k)
  }

  ghost predicate RoundsOff(n: nat, z: nat) {
    if HighBits(n) == 0 then Shape(n + 1, 0, z) == Shape(n, 1, z)
    else PicksJoin(Shape(n, 1, z), z, LowOnes(n), Shape(n + 1, 0, z))
  }

  lemma {:induction false} RoundShape(n: nat, z: nat)
    ensures RoundsOff(n, z)
    decreases n
  {
    if n % 2 == 1 {
      RoundShape(n / 2, 2 * z);
      RoundShapeOdd(n, n / 2, z);
    } else if n > 0 {
      ShapeEven(n, z);
    }
  }

  lemma RoundShapeOdd(n: nat, h: nat, z: nat)
    requires n == 2 * h + 1 && RoundsOff(h, 2 * z)
    ensures RoundsOff(n, z)
  {
    assert n % 2 == 1 && n / 2 == h;
    ShapeOdd(n, z);
    if HighBits(h) != 0 {
      JoinTail(z, Shape(h, 1, 2 * z), LowOnes(h), Shape(h + 1, 0, 2 * z));
    }
  }

  lemma JoinTail(z: nat, rest: seq<nat>, k: nat, next: seq<nat>)
    requires PicksJoin(rest, 2 * z, k, next)
    ensures PicksJoin([z] + rest, z, k + 1, [z] + next)
  {
  }

  lemma ShapeNonEmpty(n: nat)
    requires n > 0
    ensures |Shape(n, 1, 1)| >= 1 && (n > 1 ==> |Shape(n, 1, 1)| >= 2)
  {
    if n % 2 == 0 {
      ShapeEven(n, 1);
    } else {
      ShapeOdd(n, 1);
      if n > 1 {
        ShapeCarry(n / 2, 2);
      }
    }
  }

  // ----- the algorithm -----

  ghost predicate HasSizes<T>(pending: seq<seq<T>>, sizes: seq<nat>) {
    |pending| == |sizes| && forall i | 0 <= i < |sizes| :: |pending[i]| == sizes[i]
  }

  /** The invariant of the main loop: count alone fixes how many sublists of which size are pending. */
  ghost predicate Shaped<T>(pending: seq<seq<T>>, count: nat) {
    HasSizes(pending, Shape(count, 1, 1))
  }

  /** Lines 217-224: the older of the two picked sublists is merge's first argument. */
  function MergeAt<T>(cmp: (T, T) -> int, pending: seq<seq<T>>, k: nat): seq<seq<T>>
    requires k + 1 < |pending|
  {
    pending[..k] + [Merge(cmp, pending[k + 1], pending[k])] + pending[k + 2..]
  }

  /** Lines 213-224 of one round.  PicksExist shows that the picked sublists are always there. */
  function Settle<T>(cmp: (T, T) -> int, pending: seq<seq<T>>, count: nat): seq<seq<T>> {
    if HighBits(count) != 0 && LowOnes(count) + 1 < |pending| then MergeAt(cmp, pending, LowOnes(count))
    else pending
  }

  /** One round: settle, then add the next element as a sublist of its own. */
  function Round<T>(cmp: (T, T) -> int, pending: seq<seq<T>>, count: nat, x: T): seq<seq<T>> {
    [[x]] + Settle(cmp, pending, count)
  }

  /** The pending sublists once all of s has been moved to pending. */
  function Rounds<T>(cmp: (T, T) -> int, s: seq<T>): seq<seq<T>> {
    if s == [] then [] else Round(cmp, Rounds(cmp, s[..|s| - 1]), |s| - 1, s[|s| - 1])
  }

  lemma RoundsSnoc<T>(cmp: (T, T) -> int, s: seq<T>, x: T)
    ensures Rounds(cmp, s + [x]) == Round(cmp, Rounds(cmp, s), |s|, x)
  {
    var t := s + [x];
    assert t[..|t| - 1] == s && t[|t| - 1] == x;
  }

  lemma PicksExist<T>(pending: seq<seq<T>>, count: nat)
    requires Shaped(pending, count) && HighBits(count) != 0
    ensures var k := LowOnes(count);
            k + 1 < |pending| && |pending[k]| == |pending[k + 1]| == Doubled(1, k)
  {
    RoundShape(count, 1);
  }

  lemma MergeAtSizes<T>(cmp: (T, T) -> int, pending: seq<seq<T>>, sizes: seq<nat>, k: nat)
    requires HasSizes(pending, sizes) && k + 1 < |pending|
    ensures HasSizes(MergeAt(cmp, pending, k), JoinAt(sizes, k))
  {
  }

  lemma SettleSizes<T>(cmp: (T, T) -> int, pending: seq<seq<T>>, count: nat)
    requires Shaped(pending, count)
    ensures HasSizes(Settle(cmp, pending, count), Shape(count + 1, 0, 1))
  {
    RoundShape(count, 1);
    if HighBits(count) != 0 {
      MergeAtSizes(cmp, pending, Shape(count, 1, 1), LowOnes(count));
    }
  }

  /** One round moves from the shape of count to the shape of count + 1. */
  lemma RoundShaped<T>(cmp: (T, T) -> int, pending: seq<seq<T>>, count: nat, x: T)
    requires Shaped(pending, count)
    ensures Shaped(Round(cmp, pending, count, x), count + 1)
  {
    SettleSizes(cmp, pending, count);
    ShapeCarry(count + 1, 1);
    SizesFront(x, Settle(cmp, pending, count), Shape(count + 1, 0, 1));
  }

  lemma SizesFront<T>(x: T, settled: seq<seq<T>>, sizes: seq<nat>)
    requires HasSizes(settled, sizes)
    ensures HasSizes([[x]] + settled, [1] + sizes)
  {
  }

  /** The sizes in every round of every run follow from count alone. */
  lemma {:induction false} RoundsShaped<T>(cmp: (T, T) -> int, s: seq<T>)
    ensures Shaped(Rounds(cmp, s), |s|)
    decreases |s|
  {
    if s != [] {
      var older, x := s[..|s| - 1], s[|s| - 1];
      RoundsShaped(cmp, older);
      RoundShaped(cmp, Rounds(cmp, older), |older|, x);
    }
  }

  /** Lines 234-246: merge what is pending, smallest and newest first. */
  function Collapse<T>(cmp: (T, T) -> int, list: seq<T>, pending: seq<seq<T>>): seq<T>
    decreases |pending|
  {
    if pending == [] then list
    else Collapse(cmp, Merge(cmp, pending[0], list), pending[1..])
  }

  function SortList<T>(cmp: (T, T) -> int, s: seq<T>): seq<T> {
    if |s| < 2 then s
    else
      var pending := Rounds(cmp, s);
      Collapse(cmp, pending[0], pending[1..])
  }

  // ----- it is a stable sort -----

  /** The runs of input that the pending sublists stand for, oldest first. */
  ghost function Joined<T>(chunks: seq<seq<T>>): seq<T> {
    if chunks == [] then [] else Joined(chunks[1..]) + chunks[0]
  }

  /** pending[i] is the sorted form of the input run chunks[i]. */
  ghost predicate SortedChunks<T>(cmp: (T, T) -> int, pending: seq<seq<T>>, chunks: seq<seq<T>>) {
    && |pending| == |chunks|
    && forall i | 0 <= i < |chunks| :: pending[i] == StableSort(cmp, chunks[i])
  }

  lemma {:induction false} JoinedMember<T>(chunks: seq<seq<T>>, i: nat, x: T)
    requires i < |chunks| && x in chunks[i]
    ensures x in Joined(chunks)
  {
    if i > 0 {
      JoinedMember(chunks[1..], i - 1, x);
    }
  }

  lemma {:induction false} JoinedSplice<T>(chunks: seq<seq<T>>, k: nat)
    requires k + 1 < |chunks|
    ensures Joined(chunks[..k] + [chunks[k + 1] + chunks[k]] + chunks[k + 2..]) == Joined(chunks)
  {
    var out := chunks[..k] + [chunks[k + 1] + chunks[k]] + chunks[k + 2..];
    if k == 0 {
      assert out[1..] == chunks[2..] == chunks[1..][1..];
      assert Joined(chunks[2..]) + (chunks[1] + chunks[0]) == Joined(chunks[2..]) + chunks[1] + chunks[0];
    } else {
      JoinedSplice(chunks[1..], k - 1);
      assert out[1..] == chunks[1..][..k - 1] + [chunks[k + 1] + chunks[k]] + chunks[1..][k + 1..];
    }
  }

  lemma MergeAtChunks<T>(cmp: (T, T) -> int, pending: seq<seq<T>>, chunks: seq<seq<T>>, k: nat, dom: set<T>)
    returns (settled: seq<seq<T>>)
    requires PreorderOn(cmp, dom) && Within(Joined(chunks), dom)
    requires SortedChunks(cmp, pending, chunks) && k + 1 < |pending|
    ensures Joined(settled) == Joined(chunks)
    ensures SortedChunks(cmp, MergeAt(cmp, pending, k), settled)
  {
    settled := chunks[..k] + [chunks[k + 1] + chunks[k]] + chunks[k + 2..];
    JoinedSplice(chunks, k);
    forall x | x in chunks[k] || x in chunks[k + 1] ensures x in dom {
      JoinedMember(chunks, if x in chunks[k] then k else k + 1, x);
    }
    MergeOfSorts(cmp, chunks[k + 1], chunks[k], dom);
  }

  lemma RoundChunks<T>(cmp: (T, T) -> int, pending: seq<seq<T>>, chunks: seq<seq<T>>, count: nat, x: T, dom: set<T>)
    returns (next: seq<seq<T>>)
    requires PreorderOn(cmp, dom) && Within(Joined(chunks), dom) && SortedChunks(cmp, pending, chunks)
    ensures Joined(next) == Joined(chunks) + [x]
    ensures SortedChunks(cmp, Round(cmp, pending, count, x), next)
  {
    var settled := chunks;
    if HighBits(count) != 0 && LowOnes(count) + 1 < |pending| {
      settled := MergeAtChunks(cmp, pending, chunks, LowOnes(count), dom);
    }
    next := [[x]] + settled;
    assert next[1..] == settled;
    assert StableSort(cmp, [x]) == [x];
  }

  /** The sublists stand for consecutive runs of the input, through every round. */
  lemma SplitLast<T>(s: seq<T>, dom: set<T>)
    requires s != [] && Within(s, dom)
    ensures s == s[..|s| - 1] + [s[|s| - 1]] && Within(s[..|s| - 1], dom) && s[|s| - 1] in dom
  {
    forall x | x in s[..|s| - 1] ensures x in dom {
      assert x in s;
    }
  }

  lemma {:induction false} RoundsAreChunks<T>(cmp: (T, T) -> int, s: seq<T>, dom: set<T>) returns (chunks: seq<seq<T>>)
    requires PreorderOn(cmp, dom) && Within(s, dom)
    ensures Joined(chunks) == s
    ensures SortedChunks(cmp, Rounds(cmp, s), chunks)
    decreases |s|
  {
    if s == [] {
      chunks := [];
    } else {
      SplitLast(s, dom);
      var before := RoundsAreChunks(cmp, s[..|s| - 1], dom);
      chunks := NextChunks(cmp, s, Rounds(cmp, s[..|s| - 1]), before, dom);
    }
  }

  lemma NextChunks<T>(cmp: (T, T) -> int, s: seq<T>, pending: seq<seq<T>>, before: seq<seq<T>>, dom: set<T>) returns (chunks: seq<seq<T>>)
    requires PreorderOn(cmp, dom) && s != [] && Within(s, dom) && Joined(before) == s[..|s| - 1] && SortedChunks(cmp, pending, before)
    ensures Joined(chunks) == s && SortedChunks(cmp, Round(cmp, pending, |s| - 1, s[|s| - 1]), chunks)
  {
    SplitLast(s, dom);
    chunks := RoundChunks(cmp, pending, before, |s| - 1, s[|s| - 1], dom);
  }

  lemma {:induction false} CollapseSorts<T>(cmp: (T, T) -> int, run: seq<T>, pending: seq<seq<T>>, chunks: seq<seq<T>>, dom: set<T>)
    requires PreorderOn(cmp, dom) && Within(Joined(chunks) + run, dom)
    requires SortedChunks(cmp, pending, chunks)
    ensures Collapse(cmp, StableSort(cmp, run), pending) == StableSort(cmp, Joined(chunks) + run)
    decreases |chunks|
  {
    if chunks == [] {
      assert Joined(chunks) + run == run;
    } else {
      OneChunk(chunks, run, dom);
      MergeOfSorts(cmp, chunks[0], run, dom);
      CollapseSorts(cmp, chunks[0] + run, pending[1..], chunks[1..], dom);
    }
  }

  /** The oldest chunk moves over to the run. */
  lemma OneChunk<T>(chunks: seq<seq<T>>, run: seq<T>, dom: set<T>)
    requires chunks != [] && Within(Joined(chunks) + run, dom)
    ensures Joined(chunks[1..]) + (chunks[0] + run) == Joined(chunks) + run && Within(chunks[0], dom) && Within(run, dom)
  {
    forall x | x in chunks[0] || x in run ensures x in dom {
      assert x in Joined(chunks) + run;
    }
  }

  lemma ChunksCollapse<T>(cmp: (T, T) -> int, s: seq<T>, pending: seq<seq<T>>, chunks: seq<seq<T>>, dom: set<T>)
    requires PreorderOn(cmp, dom) && Within(s, dom) && s != [] && Joined(chunks) == s && SortedChunks(cmp, pending, chunks)
    ensures pending != [] && Collapse(cmp, pending[0], pending[1..]) == StableSort(cmp, s)
  {
    assert s == Joined(chunks[1..]) + chunks[0];
    CollapseSorts(cmp, chunks[0], pending[1..], chunks[1..], dom);
  }

  lemma StableSortOne<T>(cmp: (T, T) -> int, s: seq<T>)
    requires |s| < 2
    ensures StableSort(cmp, s) == s
  {
    if |s| == 1 {
      assert s == [s[0]];
    }
  }

  /** For every comparison that orders the elements, the bit-driven merge sort is stable insertion sort. */
  lemma SortListIsStableSort<T>(cmp: (T, T) -> int, s: seq<T>, dom: set<T>)
    requires PreorderOn(cmp, dom) && Within(s, dom)
    ensures SortList(cmp, s) == StableSort(cmp, s)
  {
    if |s| < 2 {
      StableSortOne(cmp, s);
    } else {
      var chunks := RoundsAreChunks(cmp, s, dom);
      ChunksCollapse(cmp, s, Rounds(cmp, s), chunks, dom);
    }
  }

  // ----- the promises of the comment at lines 191-203 -----

  lemma RepeatAt(m: nat, z: nat)
    ensures |Repeat(m, z)| == m && forall i | 0 <= i < m :: Repeat(m, z)[i] == z
  {
  }

  ghost predicate IsDoubling(size: nat, z: nat) {
    exists k: nat :: size == Doubled(z, k)
  }

  /** Sizes are z times powers of two, grow from newest to oldest, and no size occurs three times. */
  ghost predicate OrderedSizes(sizes: seq<nat>, z: nat) {
    && (forall i | 0 <= i < |sizes| :: sizes[i] >= z && IsDoubling(sizes[i], z))
    && (forall i, j | 0 <= i < j < |sizes| :: sizes[i] <= sizes[j])
    && (forall i, j | 0 <= i && i + 2 <= j < |sizes| :: sizes[i] < sizes[j])
  }

  lemma {:induction false} ShapeOrdered(n: nat, carry: nat, z: nat)
    requires carry <= 1 && z > 0
    ensures OrderedSizes(Shape(n, carry, z), z)
    decreases n
  {
    if n > 0 {
      RepeatAt(Copies(n, carry), z);
      ShapeOrdered(n / 2, n % 2, 2 * z);
      OrderedExtend(Copies(n, carry), z, Shape(n / 2, n % 2, 2 * z));
    }
  }

  lemma OrderedExtend(m: nat, z: nat, rest: seq<nat>)
    requires m <= 2 && z > 0 && OrderedSizes(rest, 2 * z)
    ensures OrderedSizes(Repeat(m, z) + rest, z)
  {
    RepeatAt(m, z);
    var sizes := Repeat(m, z) + rest;
    forall i | 0 <= i < |sizes| ensures sizes[i] >= z && IsDoubling(sizes[i], z) {
      if i < m {
        assert sizes[i] == Doubled(z, 0);
      } else {
        assert IsDoubling(rest[i - m], 2 * z);
        var k: nat :| rest[i - m] == Doubled(2 * z, k);
        assert sizes[i] == Doubled(z, k + 1);
      }
    }
  }

  /** before elements were already merged when the sublists of Shape(n, carry, z) come up. */
  lemma {:induction false} ShapeBalanced(n: nat, carry: nat, z: nat, before: nat, i: nat)
    requires i < |Shape(n, carry, z)|
    requires carry <= 1
    requires if carry == 1 then z <= 2 * before && before < z else z <= before && 2 * before < 3 * z
    ensures var sizes := Shape(n, carry, z);
            sizes[i] <= 2 * (before + Sum(sizes[..i])) && before + Sum(sizes[..i]) < 2 * sizes[i]
    decreases n
  {
    var m, rest, sizes := Copies(n, carry), Shape(n / 2, n % 2, 2 * z), Shape(n, carry, z);
    RepeatAt(m, z);
    if i < m {
      assert sizes[..i] == Repeat(m, z)[..i];
      assert i == 1 ==> sizes[..i] == [z];
    } else {
      SumRepeat(m, z);
      assert m * z == if m == 0 then 0 else if m == 1 then z else 2 * z;
      ShapeBalanced(n / 2, n % 2, 2 * z, before + m * z, i - m);
      assert sizes[..i] == Repeat(m, z) + rest[..i - m];
      SumAppend(Repeat(m, z), rest[..i - m]);
    }
  }

  lemma OddBalanced(count: nat, i: nat)
    requires count % 2 == 1 && 1 <= i < |Shape(count, 1, 1)|
    ensures var sizes := Shape(count, 1, 1); sizes[i] <= 2 * Sum(sizes[..i]) && Sum(sizes[..i]) < 2 * sizes[i]
  {
    ShapeOdd(count, 1);
    SumTake(1, Shape(count / 2, 1, 2), i - 1);
    ShapeBalanced(count / 2, 1, 2, 1, i - 1);
  }

  lemma EvenBalanced(count: nat, i: nat)
    requires count % 2 == 0 && 1 <= i < |Shape(count, 1, 1)|
    ensures var sizes := Shape(count, 1, 1); sizes[i] <= 2 * Sum(sizes[..i]) && Sum(sizes[..i]) < 2 * sizes[i]
  {
    var rest := Shape(count / 2, 0, 2);
    ShapeEven(count, 1);
    assert [1, 1] + rest == [1] + ([1] + rest);
    SumTake(1, [1] + rest, i - 1);
    if i > 1 {
      SumTake(1, rest, i - 2);
      ShapeBalanced(count / 2, 0, 2, 2, i - 2);
    }
  }

  lemma CountBalanced(count: nat, i: nat)
    requires 1 <= i < |Shape(count, 1, 1)|
    ensures var sizes := Shape(count, 1, 1); sizes[i] <= 2 * Sum(sizes[..i]) && Sum(sizes[..i]) < 2 * sizes[i]
  {
    if count % 2 == 1 {
      OddBalanced(count, i);
    } else {
      EvenBalanced(count, i);
    }
  }

  lemma SumTake(z: nat, rest: seq<nat>, i: nat)
    requires i <= |rest|
    ensures Sum(([z] + rest)[..i + 1]) == z + Sum(rest[..i])
  {
    assert ([z] + rest)[..i + 1] == [z] + rest[..i];
  }

  lemma {:induction false} CollapseLength<T>(cmp: (T, T) -> int, list: seq<T>, pending: seq<seq<T>>, sizes: seq<nat>)
    requires HasSizes(pending, sizes)
    ensures |Collapse(cmp, list, pending)| == |list| + Sum(sizes)
    decreases |pending|
  {
    if pending != [] {
      CollapseLength(cmp, Merge(cmp, pending[0], list), pending[1..], sizes[1..]);
    }
  }

  /** In the final phase pending[i], of size 2^k, meets a list of 2^(k-1) to 2^(k+1) - 1 elements. */
  lemma FinalMergesBalanced<T>(cmp: (T, T) -> int, pending: seq<seq<T>>, count: nat, i: nat)
    requires Shaped(pending, count) && 1 <= i < |pending|
    ensures var list := Collapse(cmp, pending[0], pending[1..i]);
            |pending[i]| <= 2 * |list| && |list| <= 2 * |pending[i]| - 1
  {
    var sizes := Shape(count, 1, 1);
    CountBalanced(count, i);
    assert HasSizes(pending[1..i], sizes[1..i]);
    CollapseLength(cmp, pending[0], pending[1..i], sizes[1..i]);
    assert sizes[..i] == [sizes[0]] + sizes[1..i];
    SumAppend([sizes[0]], sizes[1..i]);
    assert Sum([sizes[0]]) == sizes[0];
  }

  /** The comment at lines 191-203, for the pending sublists of any round. */
  lemma PendingInvariants<T>(pending: seq<seq<T>>, count: nat)
    requires Shaped(pending, count) && count > 0
    ensures forall i | 0 <= i < |pending| :: IsDoubling(|pending[i]|, 1)
    ensures forall i, j | 0 <= i < j < |pending| :: |pending[i]| <= |pending[j]|
    ensures forall i, j | 0 <= i && i + 2 <= j < |pending| :: |pending[i]| < |pending[j]|
    ensures |Joined(pending)| == count
  {
    ShapeOrdered(count, 1, 1);
    ShapeSum(count, 1, 1);
    JoinedLength(pending, Shape(count, 1, 1));
  }

  lemma {:induction false} JoinedLength<T>(pending: seq<seq<T>>, sizes: seq<nat>)
    requires HasSizes(pending, sizes)
    ensures |Joined(pending)| == Sum(sizes)
  {
    if pending != [] {
      JoinedLength(pending[1..], sizes[1..]);
    }
  }

  // ----- no element is lost, whatever cmp answers -----

  lemma {:induction false} JoinedAround<T>(chunks: seq<seq<T>>, k: nat, m: seq<T>) returns (l: seq<T>, r: seq<T>)
    requires k + 1 < |chunks|
    ensures Joined(chunks) == l + chunks[k + 1] + chunks[k] + r
    ensures Joined(chunks[..k] + [m] + chunks[k + 2..]) == l + m + r
    decreases k
  {
    var out := chunks[..k] + [m] + chunks[k + 2..];
    if k == 0 {
      l, r := Joined(chunks[2..]), [];
      assert chunks[1..][1..] == chunks[2..] == out[1..];
    } else {
      var r';
      l, r' := JoinedAround(chunks[1..], k - 1, m);
      SpliceBehind(chunks, k, m);
      r := r' + chunks[0];
      assert l + m + r' + chunks[0] == l + m + r;
      assert l + chunks[k + 1] + chunks[k] + r' + chunks[0] == l + chunks[k + 1] + chunks[k] + r;
    }
  }

  lemma SpliceBehind<T>(s: seq<T>, k: nat, m: T)
    requires 0 < k && k + 1 < |s|
    ensures (s[..k] + [m] + s[k + 2..])[1..] == s[1..][..k - 1] + [m] + s[1..][k + 1..]
    ensures (s[..k] + [m] + s[k + 2..])[0] == s[0] && s[1..][k] == s[k + 1] && s[1..][k - 1] == s[k]
  {
  }

  lemma RoundPermutes<T>(cmp: (T, T) -> int, pending: seq<seq<T>>, count: nat, x: T)
    ensures multiset(Joined(Round(cmp, pending, count, x))) == multiset(Joined(pending)) + multiset{x}
  {
    assert Round(cmp, pending, count, x)[1..] == Settle(cmp, pending, count);
    if HighBits(count) != 0 && LowOnes(count) + 1 < |pending| {
      MergeAtPermutes(cmp, pending, LowOnes(count));
    }
  }

  lemma MergeAtPermutes<T>(cmp: (T, T) -> int, pending: seq<seq<T>>, k: nat)
    requires k + 1 < |pending|
    ensures multiset(Joined(MergeAt(cmp, pending, k))) == multiset(Joined(pending))
  {
    var merged := Merge(cmp, pending[k + 1], pending[k]);
    var l, r := JoinedAround(pending, k, merged);
    MergePermutes(cmp, pending[k + 1], pending[k]);
  }

  lemma LastOut<T>(s: seq<T>)
    requires s != []
    ensures multiset(s) == multiset(s[..|s| - 1]) + multiset{s[|s| - 1]}
  {
    assert s == s[..|s| - 1] + [s[|s| - 1]];
  }

  lemma {:induction false} RoundsPermute<T>(cmp: (T, T) -> int, s: seq<T>)
    ensures multiset(Joined(Rounds(cmp, s))) == multiset(s)
    decreases |s|
  {
    if s != [] {
      var older := s[..|s| - 1];
      RoundsPermute(cmp, older);
      NextRoundPermutes(cmp, s, Rounds(cmp, older));
    }
  }

  lemma NextRoundPermutes<T>(cmp: (T, T) -> int, s: seq<T>, pending: seq<seq<T>>)
    requires s != [] && multiset(Joined(pending)) == multiset(s[..|s| - 1])
    ensures multiset(Joined(Round(cmp, pending, |s| - 1, s[|s| - 1]))) == multiset(s)
  {
    LastOut(s);
    RoundPermutes(cmp, pending, |s| - 1, s[|s| - 1]);
  }

  lemma {:induction false} CollapsePermutes<T>(cmp: (T, T) -> int, list: seq<T>, pending: seq<seq<T>>)
    ensures multiset(Collapse(cmp, list, pending)) == multiset(list) + multiset(Joined(pending))
    decreases |pending|
  {
    if pending != [] {
      MergePermutes(cmp, pending[0], list);
      CollapsePermutes(cmp, Merge(cmp, pending[0], list), pending[1..]);
    }
  }

  /** Whatever cmp answers, no element is lost or duplicated. */
  lemma SortListPermutes<T>(cmp: (T, T) -> int, s: seq<T>)
    ensures multiset(SortList(cmp, s)) == multiset(s)
  {
    if |s| >= 2 {
      var pending := Rounds(cmp, s);
      RoundsPermute(cmp, s);
      CollapsePermutes(cmp, pending[0], pending[1..]);
    }
  }

  // ----- cmp is only asked about (earlier, later) pairs (lines 104-105) -----

  ghost predicate SameOn<T>(cmp: (T, T) -> int, cmp': (T, T) -> int, x: T, y: T) {
    cmp(x, y) <= 0 <==> cmp'(x, y) <= 0
  }

  /** The two comparisons agree when asked about an element of a and one of b. */
  ghost predicate SameBetween<T>(cmp: (T, T) -> int, cmp': (T, T) -> int, a: seq<T>, b: seq<T>) {
    forall x, y | x in a && y in b :: SameOn(cmp, cmp', x, y)
  }

  /** The two comparisons agree whenever the first argument comes earlier in s than the second. */
  ghost predicate SameInOrder<T>(cmp: (T, T) -> int, cmp': (T, T) -> int, s: seq<T>) {
    forall i | 0 <= i < |s| :: SameBetween(cmp, cmp', s[..i], [s[i]])
  }

  /** They agree across every two sublists, the older one first. */
  ghost predicate SameAcross<T>(cmp: (T, T) -> int, cmp': (T, T) -> int, pending: seq<seq<T>>) {
    forall i, j | 0 <= i < j < |pending| :: SameBetween(cmp, cmp', pending[j], pending[i])
  }

  ghost predicate MembersOf<T>(pending: seq<seq<T>>, s: seq<T>) {
    forall i, x | 0 <= i < |pending| && x in pending[i] :: x in s
  }

  lemma {:induction false} MergeAsksInOrder<T>(cmp: (T, T) -> int, cmp': (T, T) -> int, a: seq<T>, b: seq<T>)
    requires SameBetween(cmp, cmp', a, b)
    ensures Merge(cmp, a, b) == Merge(cmp', a, b)
    ensures forall x | x in Merge(cmp, a, b) :: x in a || x in b
    decreases |a| + |b|
  {
    if a != [] && b != [] {
      assert SameOn(cmp, cmp', a[0], b[0]);
      if cmp(a[0], b[0]) <= 0 {
        MergeAsksInOrder(cmp, cmp', a[1..], b);
      } else {
        MergeAsksInOrder(cmp, cmp', a, b[1..]);
      }
    }
  }

  lemma RoundAsksInOrder<T>(cmp: (T, T) -> int, cmp': (T, T) -> int, pending: seq<seq<T>>, count: nat, older: seq<T>, x: T)
    requires SameAcross(cmp, cmp', pending) && MembersOf(pending, older) && SameBetween(cmp, cmp', older, [x])
    ensures Round(cmp, pending, count, x) == Round(cmp', pending, count, x)
    ensures SameAcross(cmp, cmp', Round(cmp, pending, count, x))
    ensures MembersOf(Round(cmp, pending, count, x), older + [x])
  {
    SettleAsksInOrder(cmp, cmp', pending, count, older);
    SameFront(cmp, cmp', Settle(cmp, pending, count), older, x);
  }

  lemma SettleAsksInOrder<T>(cmp: (T, T) -> int, cmp': (T, T) -> int, pending: seq<seq<T>>, count: nat, older: seq<T>)
    requires SameAcross(cmp, cmp', pending) && MembersOf(pending, older)
    ensures Settle(cmp, pending, count) == Settle(cmp', pending, count)
    ensures SameAcross(cmp, cmp', Settle(cmp, pending, count)) && MembersOf(Settle(cmp, pending, count), older)
  {
    var k := LowOnes(count);
    if HighBits(count) != 0 && k + 1 < |pending| {
      assert SameBetween(cmp, cmp', pending[k + 1], pending[k]);
      MergeAsksInOrder(cmp, cmp', pending[k + 1], pending[k]);
      MergeAtSameAcross(cmp, cmp', pending, k);
      MergeAtMembers(cmp, pending, k, older);
    }
  }

  lemma MergeAtMembers<T>(cmp: (T, T) -> int, pending: seq<seq<T>>, k: nat, s: seq<T>)
    requires k + 1 < |pending| && MembersOf(pending, s)
    requires forall x | x in Merge(cmp, pending[k + 1], pending[k]) :: x in pending[k + 1] || x in pending[k]
    ensures MembersOf(MergeAt(cmp, pending, k), s)
  {
    var out := MergeAt(cmp, pending, k);
    forall i, x | 0 <= i < |out| && x in out[i] ensures x in s {
      var i' := if i < k then i else if i > k then i + 1 else if x in pending[k] then k else k + 1;
      assert x in pending[i'];
    }
  }

  lemma SameFront<T>(cmp: (T, T) -> int, cmp': (T, T) -> int, settled: seq<seq<T>>, older: seq<T>, x: T)
    requires SameAcross(cmp, cmp', settled) && MembersOf(settled, older) && SameBetween(cmp, cmp', older, [x])
    ensures SameAcross(cmp, cmp', [[x]] + settled) && MembersOf([[x]] + settled, older + [x])
  {
    forall i | 0 <= i < |settled| ensures SameBetween(cmp, cmp', settled[i], [x]) {
      assert forall y | y in settled[i] :: y in older;
    }
  }

  lemma MergeAtSameAcross<T>(cmp: (T, T) -> int, cmp': (T, T) -> int, pending: seq<seq<T>>, k: nat)
    requires k + 1 < |pending| && SameAcross(cmp, cmp', pending)
    requires forall x | x in Merge(cmp, pending[k + 1], pending[k]) :: x in pending[k + 1] || x in pending[k]
    ensures SameAcross(cmp, cmp', MergeAt(cmp, pending, k))
  {
    var out := MergeAt(cmp, pending, k);
    forall i, j | 0 <= i < j < |out| ensures SameBetween(cmp, cmp', out[j], out[i]) {
      forall x, y | x in out[j] && y in out[i] ensures SameOn(cmp, cmp', x, y) {
        var j' := if j < k then j else if j > k then j + 1 else if x in pending[k] then k else k + 1;
        var i' := if i < k then i else if i > k then i + 1 else if y in pending[k] then k else k + 1;
        assert SameBetween(cmp, cmp', pending[j'], pending[i']);
      }
    }
  }

  lemma SameInOlder<T>(cmp: (T, T) -> int, cmp': (T, T) -> int, older: seq<T>, x: T, s: seq<T>)
    requires |s| == |older| + 1 && older == s[..|older|] && x == s[|older|]
    requires SameInOrder(cmp, cmp', s)
    ensures s == older + [x]
    ensures SameInOrder(cmp, cmp', older) && SameBetween(cmp, cmp', older, [x])
  {
    forall i | 0 <= i < |older| ensures SameBetween(cmp, cmp', older[..i], [older[i]]) {
      assert older[..i] == s[..i];
    }
  }

  lemma {:induction false} RoundsAskInOrder<T>(cmp: (T, T) -> int, cmp': (T, T) -> int, s: seq<T>)
    requires SameInOrder(cmp, cmp', s)
    ensures Rounds(cmp, s) == Rounds(cmp', s)
    ensures SameAcross(cmp, cmp', Rounds(cmp, s)) && MembersOf(Rounds(cmp, s), s)
    decreases |s|
  {
    if s != [] {
      var older, x := s[..|s| - 1], s[|s| - 1];
      SameInOlder(cmp, cmp', older, x, s);
      RoundsAskInOrder(cmp, cmp', older);
      RoundAsksInOrder(cmp, cmp', Rounds(cmp, older), |older|, older, x);
    }
  }

  lemma {:induction false} CollapseAsksInOrder<T>(cmp: (T, T) -> int, cmp': (T, T) -> int, list: seq<T>, pending: seq<seq<T>>)
    requires SameAcross(cmp, cmp', pending)
    requires forall i | 0 <= i < |pending| :: SameBetween(cmp, cmp', pending[i], list)
    ensures Collapse(cmp, list, pending) == Collapse(cmp', list, pending)
    decreases |pending|
  {
    if pending != [] {
      MergeAsksInOrder(cmp, cmp', pending[0], list);
      var merged, rest := Merge(cmp, pending[0], list), pending[1..];
      forall i | 0 <= i < |rest| ensures SameBetween(cmp, cmp', rest[i], merged) {
        assert SameBetween(cmp, cmp', pending[i + 1], pending[0]) && SameBetween(cmp, cmp', pending[i + 1], list);
      }
      CollapseAsksInOrder(cmp, cmp', merged, rest);
    }
  }

  /** The result depends on nothing but the answers for pairs in input order. */
  lemma SortListAsksInOrder<T>(cmp: (T, T) -> int, cmp': (T, T) -> int, s: seq<T>)
    requires SameInOrder(cmp, cmp', s)
    ensures SortList(cmp, s) == SortList(cmp', s)
  {
    if |s| >= 2 {
      RoundsAskInOrder(cmp, cmp', s);
      var pending := Rounds(cmp, s);
      CollapseAsksInOrder(cmp, cmp', pending[0], pending[1..]);
    }
  }
}

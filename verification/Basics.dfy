/** What several modules share. */
module Basics {
  datatype Option<+T> = None | Some(value: T)

  ghost function Elements(s: seq<nat>): set<nat> {
    set x | x in s
  }

  ghost predicate Distinct<T>(s: seq<T>) {
    forall i, j | 0 <= i < j < |s| :: s[i] != s[j]
  }

  ghost predicate Increasing(s: seq<nat>) {
    forall i, j | 0 <= i < j < |s| :: s[i] < s[j]
  }

  lemma IncreasingAppend(s: seq<nat>, k: nat)
    requires Increasing(s) && forall x | x in s :: x < k
    ensures Increasing(s + [k])
  {
    forall i, j | 0 <= i < j < |s + [k]| ensures (s + [k])[i] < (s + [k])[j] {
      assert s[i] in s;
    }
  }

  /** What is in a list but not at its head is in its tail. */
  lemma InTail<T>(x: T, s: seq<T>)
    requires s != [] && x in s && x != s[0]
    ensures x in s[1..]
  {
    var i :| 0 <= i < |s| && s[i] == x;
    assert s[1..][i - 1] == x;
  }

  lemma SubsetSize<T>(a: set<T>, b: set<T>)
    requires a <= b
    ensures |a| <= |b| && (|a| == |b| ==> a == b)
  {
    assert b == a + (b - a);
  }
}

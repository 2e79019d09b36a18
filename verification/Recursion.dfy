/** Which directories initrd-put walks: the recursive flag of a queued file, set when an argument ends there and
    overwritten when a link does (utils/initrd-put/initrd-put.c:207-352, 391-433, 1084-1144, queue.c:55-110). */
module Recursion {
  import opened Basics

  /** The links that canonicalising a path meets, in order, and the path at its end; what else processing a path
      enqueues; the kinds that matter; which paths are excluded or in the destination already. */
  datatype Files = Files(
    links: string -> seq<string>, end: string -> string, others: string -> seq<string>,
    isDir: string -> bool, isLink: string -> bool, excluded: string -> bool, present: string -> bool)

  /** All paths met in canonicalising the arguments, in order. */
  function Met(f: Files, args: seq<string>): seq<string> {
    if args == [] then []
    else
      var n := |args| - 1;
      Met(f, args[..n]) + (f.links(args[n]) + [f.end(args[n])])
  }

  /** a is met before b is met for the first time. */
  ghost predicate Earlier(met: seq<string>, a: string, b: string) {
    exists i :: 0 <= i < |met| && met[i] == a && b !in met[..i]
  }

  lemma EarlierGrows(met: seq<string>, more: seq<string>, a: string, b: string)
    requires Earlier(met, a, b)
    ensures Earlier(met + more, a, b)
  {
    var i :| 0 <= i < |met| && met[i] == a && b !in met[..i];
    assert (met + more)[i] == a && (met + more)[..i] == met[..i];
  }

  lemma EarlierNew(met: seq<string>, a: string, b: string)
    requires a in met && b !in met
    ensures Earlier(met, a, b)
  {
    var i :| 0 <= i < |met| && met[i] == a;
    assert b !in met[..i];
  }

  lemma OneEarlier(met: seq<string>, a: string, b: string)
    ensures Earlier(met, a, b) && Earlier(met, b, a) ==> a == b
  {
    if Earlier(met, a, b) && Earlier(met, b, a) {
      var i :| 0 <= i < |met| && met[i] == a && b !in met[..i];
      var j :| 0 <= j < |met| && met[j] == b && a !in met[..j];
      assert (forall k | 0 <= k < i :: met[k] == met[..i][k]) && (forall k | 0 <= k < j :: met[k] == met[..j][k]);
      assert i == j;
    }
  }

  /** The list holds what was met and is not excluded, the latest first. */
  ghost predicate Stacked(f: Files, met: seq<string>, items: seq<string>) {
    Distinct(items) && (forall x :: x in items <==> x in met && !f.excluded(x)) && LatestFirst(met, items)
  }

  ghost predicate LatestFirst(met: seq<string>, items: seq<string>) {
    forall i, j | 0 <= i < j < |items| :: Earlier(met, items[j], items[i])
  }

  lemma LatestGrows(met: seq<string>, items: seq<string>, x: string)
    requires LatestFirst(met, items)
    ensures LatestFirst(met + [x], items)
  {
    forall i, j | 0 <= i < j < |items| ensures Earlier(met + [x], items[j], items[i]) {
      EarlierGrows(met, [x], items[j], items[i]);
    }
  }

  lemma LatestPushed(met: seq<string>, items: seq<string>, x: string)
    requires LatestFirst(met, items) && x !in met && forall y | y in items :: y in met
    ensures LatestFirst(met, [x] + items)
  {
    var items' := [x] + items;
    forall i, j | 0 <= i < j < |items'| ensures Earlier(met, items'[j], items'[i]) {
      assert items'[j] == items[j - 1];
      if i == 0 {
        EarlierNew(met, items[j - 1], x);
      } else {
        assert items'[i] == items[i - 1];
      }
    }
  }

  lemma StackedMore(f: Files, met: seq<string>, items: seq<string>, x: string)
    requires Stacked(f, met, items)
    ensures Stacked(f, met + [x], if f.excluded(x) || x in items then items else [x] + items)
  {
    if f.excluded(x) || x in items {
      LatestGrows(met, items, x);
    } else {
      LatestPushed(met, items, x);
      LatestGrows(met, [x] + items, x);
    }
  }

  lemma NoLinks(met: seq<string>, links: seq<string>)
    ensures met + links[..0] == met && links[..|links|] == links
  {
  }

  lemma NextLink(met: seq<string>, links: seq<string>, i: nat)
    requires i < |links|
    ensures met + links[..i + 1] == met + links[..i] + [links[i]]
  {
  }

  class Queue {
    var items: seq<string>
    var tree: set<string>
    /** The queued files whose flag is set. */
    var recursive: set<string>
    var walked: set<string>

    constructor ()
      ensures items == [] && tree == recursive == walked == {}
    {
      items, tree, recursive, walked := [], {}, {}, {};
    }

    /** enqueue_item: whether a queued file is returned. */
    method EnqueueItem(f: Files, s: string) returns (queued: bool)
      modifies this`items
      ensures items == if f.excluded(s) || s in old(items) || s in tree then old(items) else [s] + old(items)
      ensures queued <==> !f.excluded(s) && (s in old(items) || s !in tree)
    {
      if f.excluded(s) {
        return false;
      }
      if s in items {
        return true;
      }
      if s in tree {
        return false;
      }
      items := [s] + items;
      return true;
    }

    method EnqueueAll(f: Files, xs: seq<string>)
      modifies this`items
      ensures forall y | y in old(items) :: y in items
    {
      var i := 0;
      while i < |xs|
        invariant forall y | y in old(items) :: y in items
      {
        var _ := EnqueueItem(f, xs[i]);
        i := i + 1;
      }
    }

    method EnqueueLinks(f: Files, links: seq<string>, ghost met: seq<string>)
      requires tree == {} && Stacked(f, met, items)
      modifies this`items
      ensures Stacked(f, met + links, items)
    {
      ghost var m := met;
      var i := 0;
      NoLinks(met, links);
      while i < |links|
        invariant i <= |links| && m == met + links[..i] && Stacked(f, m, items)
      {
        StackedMore(f, m, items, links[i]);
        NextLink(met, links, i);
        var _ := EnqueueItem(f, links[i]);
        m := m + [links[i]];
        i := i + 1;
      }
      NoLinks(met, links);
    }

    /** enqueue_canonicalized_path for an argument (line 1085): nothing is in the tree yet. */
    method EnqueueArgument(f: Files, name: string, ghost met: seq<string>)
      requires tree == {} && Stacked(f, met, items)
      modifies this`items, this`recursive
      ensures Stacked(f, met + (f.links(name) + [f.end(name)]), items)
      ensures recursive == old(recursive) + if f.excluded(f.end(name)) then {} else {f.end(name)}
    {
      EnqueueLinks(f, f.links(name), met);
      StackedMore(f, met + f.links(name), items, f.end(name));
      assert met + (f.links(name) + [f.end(name)]) == met + f.links(name) + [f.end(name)];
      var queued := EnqueueItem(f, f.end(name));
      if queued {
        recursive := recursive + {f.end(name)};
      }
    }

    /** enqueue_canonicalized_path for a link that is processed (line 425): the flag of a queued file is cleared. */
    method FollowLink(f: Files, name: string)
      modifies this`items, this`recursive
      ensures forall y | y in old(items) :: y in items
      ensures recursive <= old(recursive) && forall d | d in old(recursive) && d != f.end(name) :: d in recursive
      ensures f.end(name) in old(items) && !f.excluded(f.end(name)) ==> f.end(name) !in recursive
    {
      EnqueueAll(f, f.links(name));
      var queued := EnqueueItem(f, f.end(name));
      if queued {
        recursive := recursive - {f.end(name)};
      }
    }

    /** The loop over the arguments (lines 1084-1086). */
    method EnqueueArguments(f: Files, args: seq<string>)
      requires items == [] && tree == recursive == {}
      modifies this`items, this`recursive
      ensures Stacked(f, Met(f, args), items)
      ensures forall d :: d in recursive <==> !f.excluded(d) && exists a :: a in args && f.end(a) == d
    {
      var i := 0;
      while i < |args|
        invariant i <= |args| && Stacked(f, Met(f, args[..i]), items)
        invariant forall d :: d in recursive <==> !f.excluded(d) && exists a :: a in args[..i] && f.end(a) == d
      {
        assert args[..i + 1][..i] == args[..i] && args[..i + 1] == args[..i] + [args[i]];
        EnqueueArgument(f, args[i], Met(f, args[..i]));
        i := i + 1;
      }
      assert args[..i] == args;
    }

    /** One file of a pass (lines 1097-1140); rest is what the pass has yet to visit. */
    method Process(f: Files, x: string, ghost rest: seq<string>)
      requires x !in rest && forall y | y in rest :: y in items && !f.excluded(y)
      modifies this
      ensures forall y | y in rest :: y in items
      ensures walked == old(walked) + if !f.present(x) && f.isDir(x) && x in old(recursive) then {x} else {}
      ensures forall d | d in rest :: d in recursive <==> d in old(recursive) && !Clears(f, x, d)
      ensures recursive <= old(recursive) - {x}
    {
      if !f.present(x) {
        tree := tree + {x};
        EnqueueAll(f, f.others(x));
        if f.isDir(x) {
          if x in recursive {
            walked := walked + {x};
          }
        } else if f.isLink(x) {
          FollowLink(f, x);
        }
      }
      WithoutOthers(items, x);
      items, recursive := Without(items, x), recursive - {x};
    }

    /** The first pass over the queue, in which everything that was there is processed. */
    method FirstPass(f: Files)
      requires Distinct(items) && walked == {} && recursive <= (set x | x in items) && forall y | y in items :: !f.excluded(y)
      modifies this
      ensures recursive == {}
      ensures forall d :: d in walked <==>
                exists k :: 0 <= k < |old(items)| && old(items)[k] == d && d in old(recursive) && Kept(f, old(items)[..k], d)
                            && !f.present(d) && f.isDir(d)
    {
      var todo, i := items, 0;
      while i < |todo|
        invariant i <= |todo| && forall y | y in todo[i..] :: y in items
        invariant recursive <= (set x | x in todo[i..])
        invariant forall d | d in todo[i..] :: d in recursive <==> d in old(recursive) && Kept(f, todo[..i], d)
        invariant forall d :: d in walked <==>
                    exists k :: 0 <= k < i && todo[k] == d && d in old(recursive) && Kept(f, todo[..k], d) && !f.present(d) && f.isDir(d)
      {
        assert todo[i..] == [todo[i]] + todo[i + 1..] && todo[..i + 1] == todo[..i] + [todo[i]];
        Process(f, todo[i], todo[i + 1..]);
        i := i + 1;
      }
    }
  }

  /** Processing x clears the flag of a queued d. */
  predicate Clears(f: Files, x: string, d: string) {
    !f.present(x) && !f.isDir(x) && f.isLink(x) && f.end(x) == d
  }

  ghost predicate Kept(f: Files, before: seq<string>, d: string) {
    forall x | x in before :: !Clears(f, x, d)
  }

  function Without(s: seq<string>, x: string): seq<string> {
    if s == [] then [] else if s[0] == x then s[1..] else [s[0]] + Without(s[1..], x)
  }

  lemma {:induction false} WithoutOthers(s: seq<string>, x: string)
    ensures forall y | y in s && y != x :: y in Without(s, x)
    decreases |s|
  {
    if s != [] && s[0] != x {
      WithoutOthers(s[1..], x);
    }
  }

  // ----- the whole command line -----

  /** d is walked: an argument ends there, nothing keeps it out, and every link to it that the arguments' paths run
      through is met before it is. */
  ghost predicate Walked(f: Files, args: seq<string>, d: string) {
    && (exists a :: a in args && f.end(a) == d)
    && f.isDir(d) && !f.excluded(d) && !f.present(d)
    && forall l | l in Met(f, args) && f.isLink(l) && !f.isDir(l) && !f.excluded(l) && !f.present(l) && f.end(l) == d ::
         Earlier(Met(f, args), l, d)
  }

  lemma {:induction false} EndMet(f: Files, args: seq<string>, a: string)
    requires a in args
    ensures f.end(a) in Met(f, args)
    decreases |args|
  {
    var n := |args| - 1;
    if a != args[n] {
      assert a in args[..n];
      EndMet(f, args[..n], a);
    }
  }

  /** In the queue the links to d that come before it are those that were met after it. */
  lemma KeptMeans(f: Files, met: seq<string>, items: seq<string>, k: nat)
    requires Stacked(f, met, items) && k < |items| && f.isDir(items[k])
    ensures var d := items[k];
            Kept(f, items[..k], d) <==>
              forall l | l in met && f.isLink(l) && !f.isDir(l) && !f.excluded(l) && !f.present(l) && f.end(l) == d :: Earlier(met, l, d)
  {
    var d := items[k];
    forall i | 0 <= i < |items| && i != k ensures Earlier(met, items[i], d) <==> i > k {
      OneEarlier(met, d, items[i]);
    }
    assert forall i | 0 <= i < k :: items[..k][i] == items[i];
    if Kept(f, items[..k], d) {
      assert forall i | 0 <= i < k :: !Clears(f, items[..k][i], d);
      forall l | l in met && f.isLink(l) && !f.isDir(l) && !f.excluded(l) && !f.present(l) && f.end(l) == d ensures Earlier(met, l, d) {
        assert l in items;
        var i :| 0 <= i < |items| && items[i] == l;
      }
    } else {
      var l :| l in items[..k] && Clears(f, l, d);
      var i :| 0 <= i < k && items[..k][i] == l;
      assert items[i] == l && l in met;
    }
  }

  /** The flags over the whole program: exactly these directories are walked, and after the first pass no flag is left. */
  method WalkArguments(f: Files, args: seq<string>) returns (q: Queue)
    ensures forall d :: d in q.walked <==> Walked(f, args, d)
    ensures q.recursive == {}
  {
    q := new Queue();
    q.EnqueueArguments(f, args);
    ghost var met, items, recursive := Met(f, args), q.items, q.recursive;
    forall d | d in recursive ensures d in items {
      var a :| a in args && f.end(a) == d;
      EndMet(f, args, a);
    }
    q.FirstPass(f);
    forall d ensures d in q.walked <==> Walked(f, args, d) {
      forall k: nat | k < |items| && f.isDir(items[k]) {
        KeptMeans(f, met, items, k);
      }
    }
  }

  /** For every directory and every link to it: when the link is given behind the directory, what the directory holds
      is not copied; when it is given in front, it is. */
  lemma OrderMatters(f: Files, d: string, l: string)
    requires f.isDir(d) && !f.isDir(l) && f.isLink(l)
    requires f.links(d) == [] && f.end(d) == d && f.links(l) == [l] && f.end(l) == d
    requires forall x | x in {d, l} :: !f.excluded(x) && !f.present(x)
    ensures !Walked(f, [d, l], d) && Walked(f, [l, d], d)
  {
    MetTwo(f, d, l);
    MetTwo(f, l, d);
    var behind, front := [d, l, d], [l, d, d];
    assert behind[0] == d && l !in behind[..0] && l == behind[1];
    OneEarlier(behind, d, l);
    assert front[0] == l && d !in front[..0];
    assert d in [l, d] && forall x | x in front :: x == l || x == d;
  }

  lemma MetTwo(f: Files, a: string, b: string)
    ensures Met(f, [a, b]) == f.links(a) + [f.end(a)] + (f.links(b) + [f.end(b)])
  {
    assert [a, b][..1] == [a] && [a][..0] == [];
    assert Met(f, [a]) == [] + (f.links(a) + [f.end(a)]);
  }
}

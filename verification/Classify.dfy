/** Sorting the files of the tree into directories, files and hardlinks (utils/initrd-put/initrd-put.c:823-904). */
module Classify {
  import opened Basics

  datatype Info = Info(isDir: bool, isRegular: bool, links: nat, dev: nat, ino: nat)

  /** May share its inode with another file of the tree. */
  predicate Shared(f: Info) {
    !f.isDir && f.isRegular && f.links > 1
  }

  ghost predicate SameInode(a: Info, b: Info) {
    Shared(a) && Shared(b) && a.dev == b.dev && a.ino == b.ino
  }

  /** An earlier file has the same inode. */
  ghost predicate IsCopy(fs: seq<Info>, i: nat) {
    i < |fs| && exists j | 0 <= j < i :: SameInode(fs[j], fs[i])
  }

  ghost predicate IsFirst(fs: seq<Info>, i: nat) {
    i < |fs| && !fs[i].isDir && !IsCopy(fs, i)
  }

  /** What the inode table says about the first n files. */
  ghost predicate Table(fs: seq<Info>, n: nat, first: map<(nat, nat), nat>) {
    n <= |fs|
    && (forall k | k in first :: first[k] < n && IsFirst(fs, first[k]) && Shared(fs[first[k]]) && k == (fs[first[k]].dev, fs[first[k]].ino))
    && forall i | 0 <= i < n && Shared(fs[i]) :: (fs[i].dev, fs[i].ino) in first
  }

  /** The three lists hold the first n files in their order. */
  ghost predicate Sorted(fs: seq<Info>, n: nat, dirs: seq<nat>, files: seq<nat>, copies: seq<nat>) {
    && n <= |fs| && Increasing(dirs) && Increasing(files) && Increasing(copies)
    && (forall i :: i in dirs <==> 0 <= i < n && fs[i].isDir)
    && (forall i :: i in files <==> 0 <= i < n && IsFirst(fs, i))
    && (forall i :: i in copies <==> 0 <= i < n && IsCopy(fs, i))
  }

  /** One list grows by n. */
  lemma Grown(s: seq<nat>, n: nat)
    requires Increasing(s) && forall x | x in s :: x < n
    ensures Increasing(s + [n]) && forall i :: i in s + [n] <==> i in s || i == n
  {
    IncreasingAppend(s, n);
  }

  lemma SortedStep(fs: seq<Info>, n: nat, dirs: seq<nat>, files: seq<nat>, copies: seq<nat>)
    requires Sorted(fs, n, dirs, files, copies) && n < |fs|
    ensures fs[n].isDir ==> Sorted(fs, n + 1, dirs + [n], files, copies)
    ensures IsFirst(fs, n) ==> Sorted(fs, n + 1, dirs, files + [n], copies)
    ensures IsCopy(fs, n) ==> Sorted(fs, n + 1, dirs, files, copies + [n])
  {
    if fs[n].isDir {
      Grown(dirs, n);
    } else if IsCopy(fs, n) {
      Grown(copies, n);
    } else {
      Grown(files, n);
    }
  }

  lemma InTable(fs: seq<Info>, i: nat, first: map<(nat, nat), nat>)
    requires Table(fs, i, first) && i < |fs| && Shared(fs[i])
    ensures (fs[i].dev, fs[i].ino) in first <==> IsCopy(fs, i)
    ensures (fs[i].dev, fs[i].ino) in first ==>
              Table(fs, i + 1, first) && SameInode(fs[first[(fs[i].dev, fs[i].ino)]], fs[i])
    ensures (fs[i].dev, fs[i].ino) !in first ==> Table(fs, i + 1, first[(fs[i].dev, fs[i].ino) := i])
  {
    if IsCopy(fs, i) {
      var j :| 0 <= j < i && SameInode(fs[j], fs[i]);
      assert (fs[j].dev, fs[j].ino) in first;
    }
  }

  lemma NotInTable(fs: seq<Info>, i: nat, first: map<(nat, nat), nat>)
    requires Table(fs, i, first) && i < |fs| && !Shared(fs[i])
    ensures Table(fs, i + 1, first) && !IsCopy(fs, i)
  {
  }

  ghost predicate Targets(fs: seq<Info>, copies: seq<nat>, targets: map<nat, nat>) {
    forall k | k in copies :: k < |fs| && k in targets && targets[k] < k && IsFirst(fs, targets[k]) && SameInode(fs[targets[k]], fs[k])
  }

  lemma TargetAdded(fs: seq<Info>, copies: seq<nat>, targets: map<nat, nat>, i: nat, t: nat)
    requires Targets(fs, copies, targets) && i !in copies && i < |fs| && t < i && IsFirst(fs, t) && SameInode(fs[t], fs[i])
    ensures Targets(fs, copies + [i], targets[i := t])
  {
  }

  /** classify_file over the whole tree: every file is in exactly one list, hardlinks are those with an earlier file
      on the same inode, and each one's target is the first such file, which is itself installed as a file. */
  method ClassifyAll(fs: seq<Info>) returns (dirs: seq<nat>, files: seq<nat>, copies: seq<nat>, targets: map<nat, nat>)
    ensures Sorted(fs, |fs|, dirs, files, copies)
    ensures forall i | i in copies :: i in targets && targets[i] < i && targets[i] in files && SameInode(fs[targets[i]], fs[i])
  {
    dirs, files, copies, targets := [], [], [], map[];
    var first: map<(nat, nat), nat>, i := map[], 0;
    while i < |fs|
      invariant i <= |fs| && Sorted(fs, i, dirs, files, copies) && Table(fs, i, first) && Targets(fs, copies, targets)
    {
      var f := fs[i];
      SortedStep(fs, i, dirs, files, copies);
      if !f.isDir && f.isRegular && f.links > 1 {
        InTable(fs, i, first);
        if (f.dev, f.ino) in first {
          TargetAdded(fs, copies, targets, i, first[(f.dev, f.ino)]);
          targets := targets[i := first[(f.dev, f.ino)]];
          copies := copies + [i];
        } else {
          first := first[(f.dev, f.ino) := i];
          files := files + [i];
        }
      } else {
        NotInTable(fs, i, first);
        if f.isDir {
          dirs := dirs + [i];
        } else {
          files := files + [i];
        }
      }
      i := i + 1;
    }
  }
}

/** Exactly which removals of a queue directory can lead ueventd to two workers for one
    queue: in every state of every run, whatever the daemon is doing and whatever is
    paused, those of a directory that inotify watches.

    The runs built here use that a new directory may have the inode of a removed one:
    unwatch_path takes the first watch on an inode, so the watch of a queue made in the
    meantime goes, and the one whose directory is gone stays. */
module UeventRemoval {
  import opened UeventDaemon
  import opened UeventProtocol
  import opened UeventDelivery
  import opened UeventPause
  import opened UeventRuns

  /** Queue q's directory is gone, its watch is in the list, and message n says so; no
      other message drops a watch, and at most one worker holds the inode open. */
  ghost predicate Stale(s: State, q: string, wd: nat, ino: nat, n: nat) {
    && q !in s.queues && Listed(s.mem.watches, q, wd, ino)
    && n < |s.inbox| && s.inbox[n] == Msg(wd, DeleteSelf) && (forall i | 0 <= i < |s.inbox| && i != n :: s.inbox[i].mask != DeleteSelf)
    && ino >= FIRST_QUEUE_INO && ino !in s.kernel && ino !in s.queues.Values
    && OpenOnce(s.workers, ino)
  }

  ghost predicate Opens(workers: map<nat, Worker>, pid: nat, ino: nat) {
    pid in workers && workers[pid].pc.Moving? && workers[pid].pc.ino == ino
  }

  ghost predicate OpenOnce(workers: map<nat, Worker>, ino: nat) {
    forall p, p' | Opens(workers, p, ino) && Opens(workers, p', ino) :: p == p'
  }

  // ----- the daemon ends what it is doing -----

  /** Steps of the daemon that lose no watch and read no message. */
  lemma StaleKept(s: State, t: State, q: string, wd: nat, ino: nat, n: nat)
    requires Stale(s, q, wd, ino, n) && NoneLost(s.mem.watches, t.mem.watches) && WatchesQueues(s, t)
    requires t.queues == s.queues && t.inbox == s.inbox && t.workers == s.workers
    ensures Stale(t, q, wd, ino, n)
  {
  }

  lemma StaleTask(s: State, task: Task, q: string, wd: nat, ino: nat, n: nat)
    requires Stale(s, q, wd, ino, n)
    ensures Stale(s.(task := task), q, wd, ino, n)
  {
  }

  lemma EnterLoopLeads(s: State, q: string, wd: nat, ino: nat, n: nat) returns (steps: seq<Step>, t: State)
    requires Stale(s, q, wd, ino, n) && s.task == Idle
    ensures Leads(s, steps, t) && Stale(t, q, wd, ino, n) && Ready(t)
  {
    if s.booting {
      LeadsOne(s, Do(EnterLoop));
      steps, t := [Do(EnterLoop)], s.(mem := ApplyPause(s.mem, s.pauses), booting := false);
      SameListLosesNone(s.mem.watches, t.mem.watches);
      StaleKept(s, t, q, wd, ino, n);
    } else {
      steps, t := [], s;
    }
  }

  /** From a scan, or with an event to deliver, the daemon can get to its main loop. */
  lemma FinishBack(s: State, q: string, wd: nat, ino: nat, n: nat) returns (steps: seq<Step>, t: State)
    requires Stale(s, q, wd, ino, n) && DistinctInodes(s.queues) && (s.task == Idle || s.task.Scanning? || s.task.Delivering?)
    ensures Leads(s, steps, t) && Stale(t, q, wd, ino, n) && Ready(t)
  {
    var first, s1 := [], s;
    if s.task.Scanning? {
      first, s1 := ScanAll(s, q, s.nextWd);
      StaleKept(s, s1, q, wd, ino, n);
    } else if s.task.Delivering? {
      LeadsOne(s, Do(TimerGone));
      first, s1 := [Do(TimerGone)], s.(task := Idle);
      StaleTask(s, Idle, q, wd, ino, n);
    }
    var more;
    more, t := EnterLoopLeads(s1, q, wd, ino, n);
    LeadsOn(s, first, s1, more, t);
    steps := first + more;
  }

  lemma FinishEntering(s: State, q: string, wd: nat, ino: nat, n: nat) returns (steps: seq<Step>, t: State)
    requires Stale(s, q, wd, ino, n) && s.task.Watching? && s.task.queue in s.queues
    ensures Leads(s, steps, t) && Stale(t, q, wd, ino, n) && t.task == s.task.back
  {
    LeadsOne(s, Do(ScanCheck));
    steps, t := [Do(ScanCheck)], EnterWatch(s);
    assert t.mem.watches == [t.mem.watches[0]] + s.mem.watches;
    EnterLosesNone(t.mem.watches[0], s.mem.watches);
    StaleKept(s, t, q, wd, ino, n);
  }

  /** An inode other than ino that no directory has. */
  lemma OtherFreshIno(s: State, ino: nat) returns (other: nat)
    ensures FreshIno(s, other) && other != ino
  {
    var open := set pid | pid in s.workers && s.workers[pid].pc.Moving? :: s.workers[pid].pc.ino;
    other := Beyond(s.kernel.Keys + s.queues.Values + open + {ino});
  }

  lemma StaleMakeDir(s: State, q: string, wd: nat, ino: nat, n: nat, p: string, other: nat)
    requires Stale(s, q, wd, ino, n) && p != q && other != ino
    ensures Stale(MakeDir(s, p, other), q, wd, ino, n)
  {
  }

  /** A queue that a timer event is about to go into can be made again if it is gone. */
  lemma MakeAgain(s: State, q: string, wd: nat, ino: nat, n: nat) returns (steps: seq<Step>, t: State)
    requires Stale(s, q, wd, ino, n) && Linked(s) && s.task.Ensuring? && s.task.queue !in s.queues && s.task.queue != q
    ensures Leads(s, steps, t) && Stale(t, q, wd, ino, n) && Linked(t) && t.task == s.task && t.booting == s.booting && t.task.queue in t.queues
  {
    var p := s.task.queue;
    var other := OtherFreshIno(s, ino);
    LeadsOne(s, Outside(MakeQueue(p, other)));
    steps, t := [Outside(MakeQueue(p, other))], MakeDir(s, p, other);
    StaleMakeDir(s, q, wd, ino, n, p, other);
    LinkedMakeDir(s, p, other);
  }

  lemma FinishEnsuring(s: State, q: string, wd: nat, ino: nat, n: nat) returns (steps: seq<Step>, t: State)
    requires Stale(s, q, wd, ino, n) && Linked(s) && s.task.Ensuring?
    ensures Leads(s, steps, t) && Stale(t, q, wd, ino, n) && t.task.Delivering? && t.booting == s.booting
  {
    var p, e := s.task.queue, s.task.event;
    ListedIsNamed(s.mem.watches, q, wd, ino);
    if p in s.queues {
      steps, t := EnsureWatched(s, q, wd, ino, n);
    } else if Named(s.mem.watches, p) {
      LeadsOne(s, Do(TimerWatch));
      steps, t := [Do(TimerWatch)], s.(task := Delivering(p, e));
      StaleTask(s, Delivering(p, e), q, wd, ino, n);
    } else {
      var first, s1 := MakeAgain(s, q, wd, ino, n);
      var more;
      more, t := EnsureWatched(s1, q, wd, ino, n);
      LeadsOn(s, first, s1, more, t);
      steps := first + more;
    }
  }

  lemma EnsureWatched(s: State, q: string, wd: nat, ino: nat, n: nat) returns (steps: seq<Step>, t: State)
    requires Stale(s, q, wd, ino, n) && Linked(s) && s.task.Ensuring? && s.task.queue in s.queues
    ensures Leads(s, steps, t) && Stale(t, q, wd, ino, n) && t.task.Delivering? && t.booting == s.booting
  {
    var answer;
    steps, t, answer := EnsureLeads(s, s.task.queue, s.task.event);
    if t.mem != s.mem {
      assert t.mem.watches == [t.mem.watches[0]] + s.mem.watches;
      EnterLosesNone(t.mem.watches[0], s.mem.watches);
    }
    StaleKept(s, t, q, wd, ino, n);
  }

  /** Whatever the daemon is doing, it can get to its main loop. */
  lemma Finish(s: State, q: string, wd: nat, ino: nat, n: nat) returns (steps: seq<Step>, t: State)
    requires Stale(s, q, wd, ino, n) && Lasting(s) && (s.task.Watching? ==> s.task.queue in s.queues)
    ensures Leads(s, steps, t) && Stale(t, q, wd, ino, n) && Ready(t) && Lasting(t)
  {
    var first, s1 := [], s;
    if s.task.Watching? {
      first, s1 := FinishEntering(s, q, wd, ino, n);
      LastingRun(s, first, s1);
    } else if s.task.Ensuring? {
      first, s1 := FinishEnsuring(s, q, wd, ino, n);
      LastingRun(s, first, s1);
    }
    var more;
    more, t := FinishBack(s1, q, wd, ino, n);
    LeadsOn(s, first, s1, more, t);
    steps := first + more;
    LastingRun(s, steps, t);
  }

  // ----- nothing is paused, and the inode is free -----

  lemma Unpause(s: State, name: string, q: string, wd: nat, ino: nat, n: nat) returns (steps: seq<Step>, t: State)
    requires Stale(s, q, wd, ino, n) && Ready(s)
    ensures Leads(s, steps, t) && Stale(t, q, wd, ino, n) && Ready(t) && t.pauses == s.pauses - {name}
  {
    if name in s.pauses {
      LeadsOne(s, Outside(ClearPause(name)));
      steps, t := [Outside(ClearPause(name))], Changed(s, ClearPause(name));
    } else {
      steps, t := [], s;
    }
  }

  lemma UnpauseBoth(s: State, q: string, wd: nat, ino: nat, n: nat) returns (steps: seq<Step>, t: State)
    requires Stale(s, q, wd, ino, n) && Ready(s) && Lasting(s)
    ensures Leads(s, steps, t) && Stale(t, q, wd, ino, n) && Ready(t) && Lasting(t) && !PauseWanted(t.pauses, q)
  {
    var first, s1 := Unpause(s, q, q, wd, ino, n);
    var more;
    more, t := Unpause(s1, ".all", q, wd, ino, n);
    LeadsOn(s, first, s1, more, t);
    steps := first + more;
    LastingRun(s, steps, t);
  }

  ghost predicate NoneOpens(workers: map<nat, Worker>, ino: nat) {
    forall pid :: !Opens(workers, pid, ino)
  }

  /** The worker that holds the inode open can come to its end. */
  lemma CloseDir(s: State, q: string, wd: nat, ino: nat, n: nat) returns (steps: seq<Step>, t: State)
    requires Stale(s, q, wd, ino, n) && Ready(s) && Lasting(s)
    ensures Leads(s, steps, t) && Stale(t, q, wd, ino, n) && Ready(t) && Lasting(t) && t.pauses == s.pauses && NoneOpens(t.workers, ino)
  {
    if NoneOpens(s.workers, ino) {
      steps, t := [], s;
    } else {
      var pid :| Opens(s.workers, pid, ino);
      steps, t := Retire(s, pid);
      LastingRun(s, steps, t);
      forall p ensures !Opens(t.workers, p, ino) {
        assert Opens(t.workers, p, ino) ==> Opens(s.workers, p, ino);
      }
    }
  }

  /** The messages before the removal can be read. */
  lemma ReadUpTo(s: State, q: string, wd: nat, ino: nat, n: nat) returns (steps: seq<Step>, t: State)
    requires Stale(s, q, wd, ino, n) && Ready(s) && Lasting(s)
    ensures Leads(s, steps, t) && Stale(t, q, wd, ino, 0) && Ready(t) && Lasting(t) && t.pauses == s.pauses && t.workers == s.workers
  {
    steps, t := ReadMany(s, n);
    assert Listed(t.mem.watches, q, wd, ino);
    forall i | 0 < i < |t.inbox| ensures t.inbox[i].mask != DeleteSelf {
      assert t.inbox[i] == s.inbox[n + i];
    }
  }

  /** All of this, one after the other. */
  lemma Prepare(s: State, q: string, wd: nat, ino: nat, n: nat) returns (steps: seq<Step>, t: State)
    requires Stale(s, q, wd, ino, n) && Ready(s) && Lasting(s)
    ensures Leads(s, steps, t) && Stale(t, q, wd, ino, 0) && Ready(t) && Lasting(t) && !PauseWanted(t.pauses, q) && NoneOpens(t.workers, ino)
  {
    var a, s1 := UnpauseBoth(s, q, wd, ino, n);
    var b, s2 := CloseDir(s1, q, wd, ino, n);
    LeadsOn(s, a, s1, b, s2);
    var c;
    c, t := ReadUpTo(s2, q, wd, ino, n);
    LeadsOn(s, a + b, s2, c, t);
    steps := a + b + c;
  }

  // ----- another queue takes the inode -----

  lemma FreshString(used: set<string>) returns (r: string)
    ensures r !in used
  {
    var sizes := set name | name in used :: |name|;
    var size := Beyond(sizes);
    assert forall name | name in used :: |name| in sizes;
    r := seq(size, _ => 'a');
  }

  /** A name that no queue and no watch has. */
  lemma SomeFreshName(s: State) returns (r: string)
    ensures r !in s.queues && !Named(s.mem.watches, r)
  {
    var names := set i | 0 <= i < |s.mem.watches| :: s.mem.watches[i].name;
    assert forall i | 0 <= i < |s.mem.watches| :: s.mem.watches[i].name in names;
    r := FreshString(s.queues.Keys + names);
  }

  /** A watch on this inode stands in front of the list; otherwise a queue and the message about it have come. */
  ghost predicate InFront(s: State, t: State, ino: nat) {
    && t.mem.watches != [] && t.mem.watches[1..] == s.mem.watches && t.mem.watches[0].ino == ino
    && t.inbox == s.inbox + [Msg(ROOT_WD, Create)] && t.pauses == s.pauses
  }

  /** The daemon watches new queue r, whose event is gone when it comes to the rename. */
  lemma EnsureFront(s: State, r: string) returns (steps: seq<Step>, t: State)
    requires Linked(s) && s.task == Ensuring(r, "e") && !s.booting && r in s.queues && !Named(s.mem.watches, r)
    ensures Leads(s, steps, t) && Ready(t) && DaemonOnly(s, t) && t.inbox == s.inbox
    ensures t.mem.watches != [] && t.mem.watches[1..] == s.mem.watches && t.mem.watches[0].ino == s.queues[r]
  {
    var first, s1, answer := EnsureLeads(s, r, "e");
    LeadsOne(s1, Do(TimerGone));
    t := s1.(task := Idle);
    LeadsOn(s, first, s1, [Do(TimerGone)], t);
    steps := first + [Do(TimerGone)];
  }

  lemma InodeIsFree(s: State, q: string, wd: nat, ino: nat)
    requires Stale(s, q, wd, ino, 0) && NoneOpens(s.workers, ino)
    ensures FreshIno(s, ino)
  {
    forall pid | pid in s.workers && s.workers[pid].pc.Moving? ensures s.workers[pid].pc.ino != ino {
      assert !Opens(s.workers, pid, ino);
    }
    assert forall p | p in s.queues :: s.queues[p] in s.queues.Values;
  }

  lemma TakeInode(s: State, q: string, wd: nat, ino: nat) returns (steps: seq<Step>, t: State)
    requires Stale(s, q, wd, ino, 0) && Ready(s) && Lasting(s) && NoneOpens(s.workers, ino)
    ensures Leads(s, steps, t) && Ready(t) && Lasting(t) && InFront(s, t, ino) && q !in t.queues
  {
    var r := SomeFreshName(s);
    ListedIsNamed(s.mem.watches, q, wd, ino);
    InodeIsFree(s, q, wd, ino);
    var s1 := EnsureDir(s, r, "e", ino);
    LeadsOne(s, Do(TimerMkdir(r, "e", ino)));
    LastingRun(s, [Do(TimerMkdir(r, "e", ino))], s1);
    var more;
    more, t := EnsureFront(s1, r);
    LeadsOn(s, [Do(TimerMkdir(r, "e", ino))], s1, more, t);
    steps := [Do(TimerMkdir(r, "e", ino))] + more;
    LastingRun(s, steps, t);
  }

  // ----- the wrong watch is dropped -----

  lemma FrontIsDropped(ws: seq<Watch>, wd: nat, ino: nat)
    requires ws != [] && ws[0].ino == ino && First(ws, IsWd(wd)) < |ws| && ws[First(ws, IsWd(wd))].ino == ino
    ensures Dropped(ws, wd) == 0
  {
    assert IsIno(ino)(ws[0]);
  }

  lemma ListedFirst(ws: seq<Watch>, q: string, wd: nat, ino: nat, workers: map<nat, Worker>, limit: nat)
    requires Listed(ws, q, wd, ino) && Staffed(ws, workers, limit)
    ensures First(ws, IsWd(wd)) < |ws| && ws[First(ws, IsWd(wd))].ino == ino
  {
    var i :| 0 <= i < |ws| && ws[i].kind.QueueDir? && ws[i].name == q && ws[i].wd == wd && ws[i].ino == ino;
    assert IsWd(wd)(ws[i]);
    var f := First(ws, IsWd(wd));
    assert f <= i && ws[f].wd == ws[i].wd;
  }

  /** The message that q's directory is gone drops the other queue's watch. */
  lemma DropFront(s: State, t: State, q: string, wd: nat, ino: nat)
    requires Stale(s, q, wd, ino, 0) && InFront(s, t, ino) && Ready(t) && Lasting(t)
    ensures t.inbox != [] && TakeMessage(t).mem.watches == s.mem.watches && TakeMessage(t).inbox == t.inbox[1..]
    ensures Ready(TakeMessage(t)) && TakeMessage(t).queues == t.queues && TakeMessage(t).pauses == t.pauses
  {
    assert t.inbox[0] == s.inbox[0];
    EnterLosesNone(t.mem.watches[0], s.mem.watches);
    assert [t.mem.watches[0]] + s.mem.watches == t.mem.watches;
    assert Listed(t.mem.watches, q, wd, ino);
    ListedFirst(t.mem.watches, q, wd, ino, t.workers, t.nextWd);
    FrontIsDropped(t.mem.watches, wd, ino);
    GoneDrops(t);
    assert t.mem.watches[..0] + t.mem.watches[1..] == s.mem.watches;
  }

  /** Only the daemon's watch is left of q, and no message drops a watch. */
  ghost predicate Kept(s: State, q: string, wd: nat, ino: nat) {
    && Listed(s.mem.watches, q, wd, ino) && q !in s.queues && !PauseWanted(s.pauses, q)
    && forall i | 0 <= i < |s.inbox| :: s.inbox[i].mask != DeleteSelf
  }

  lemma DropLeads(s: State, t: State, q: string, wd: nat, ino: nat) returns (u: State)
    requires Stale(s, q, wd, ino, 0) && InFront(s, t, ino) && Ready(t) && Lasting(t) && q !in t.queues && !PauseWanted(t.pauses, q)
    ensures Leads(t, [Do(ReadInotify)], u) && Ready(u) && Kept(u, q, wd, ino)
  {
    DropFront(s, t, q, wd, ino);
    ReadLeads(t);
    u := TakeMessage(t);
    KeptAfterDrop(s, t, u, q, wd, ino);
  }

  lemma ReadLeads(s: State)
    requires Ready(s) && s.inbox != []
    ensures Leads(s, [Do(ReadInotify)], TakeMessage(s))
  {
    LeadsOne(s, Do(ReadInotify));
  }

  lemma KeptAfterDrop(s: State, t: State, u: State, q: string, wd: nat, ino: nat)
    requires Stale(s, q, wd, ino, 0) && InFront(s, t, ino) && q !in t.queues && !PauseWanted(t.pauses, q)
    requires u.mem.watches == s.mem.watches && u.inbox == t.inbox[1..] && u.queues == t.queues && u.pauses == t.pauses
    ensures Kept(u, q, wd, ino)
  {
    forall i | 0 <= i < |u.inbox| ensures u.inbox[i].mask != DeleteSelf {
      assert u.inbox[i] == t.inbox[i + 1];
    }
  }

  /** With the other messages read, q's watch is still there and nothing is pending. */
  lemma ReadRest(s: State, q: string, wd: nat, ino: nat) returns (steps: seq<Step>, t: State)
    requires Kept(s, q, wd, ino) && Ready(s) && Lasting(s)
    ensures Leads(s, steps, t) && Ready(t) && Lasting(t) && Gone(t, q)
  {
    steps, t := ReadMany(s, |s.inbox|);
    assert Listed(t.mem.watches, q, wd, ino);
    ListedIsNamed(t.mem.watches, q, wd, ino);
  }

  lemma DropAndRead(s: State, t: State, q: string, wd: nat, ino: nat) returns (steps: seq<Step>, u: State)
    requires Stale(s, q, wd, ino, 0) && InFront(s, t, ino) && Ready(t) && Lasting(t) && q !in t.queues && !PauseWanted(t.pauses, q)
    ensures Leads(t, steps, u) && Ready(u) && Lasting(u) && Gone(u, q)
  {
    var t1 := DropLeads(s, t, q, wd, ino);
    LastingRun(t, [Do(ReadInotify)], t1);
    var more;
    more, u := ReadRest(t1, q, wd, ino);
    LeadsOn(t, [Do(ReadInotify)], t1, more, u);
    steps := [Do(ReadInotify)] + more;
  }

  /** From a stale watch to two workers. */
  lemma StaleBreaks(s: State, q: string, wd: nat, ino: nat, n: nat) returns (steps: seq<Step>, t: State)
    requires Stale(s, q, wd, ino, n) && Ready(s) && Lasting(s)
    ensures Leads(s, steps, t) && TwoHandlers(t, q)
  {
    var a, s1 := Prepare(s, q, wd, ino, n);
    var b, s2 := TakeInode(s1, q, wd, ino);
    LeadsOn(s, a, s1, b, s2);
    var c, s3 := DropAndRead(s1, s2, q, wd, ino);
    LeadsOn(s, a + b, s2, c, s3);
    var d, s4 := Remake(s3, q);
    LeadsOn(s, a + b + c, s3, d, s4);
    var e;
    e, t := BothHandlers(s4, q);
    LeadsOn(s, a + b + c + d, s4, e, t);
    steps := a + b + c + d + e;
  }

  // ----- the removal -----

  lemma OneWorkerOpens(s: State, q: string)
    requires Sound(s) && q in s.queues
    ensures OpenOnce(s.workers, s.queues[q])
  {
    forall p, p' | Opens(s.workers, p, s.queues[q]) && Opens(s.workers, p', s.queues[q]) ensures p == p' {
      assert s.workers[p].queue == q && s.workers[p'].queue == q;
    }
  }

  lemma RemovalLeavesStale(s: State, q: string)
    requires Sound(s) && Linked(s) && q in s.queues && s.queues[q] in s.kernel && !(s.task.Watching? && s.task.queue == q)
    ensures Stale(RemoveDir(s, q), q, s.kernel[s.queues[q]], s.queues[q], |s.inbox|)
  {
    SoundListed(s, q);
    RemovalPosts(s, q);
    OneWorkerOpens(s, q);
  }

  /** The daemon was about to enter q: the directory comes back, is entered, and goes again. */
  lemma EnteredLate(s: State, q: string) returns (steps: seq<Step>, t: State, ino: nat)
    requires Sound(s) && Lasting(s) && q in s.queues && s.queues[q] in s.kernel && s.task.Watching? && s.task.queue == q
    ensures Leads(RemoveDir(s, q), steps, t) && Stale(t, q, s.task.wd, ino, |s.inbox|) && t.task == s.task.back
  {
    var s1 := RemoveDir(s, q);
    RemovalPosts(s, q);
    ino := SomeFreshIno(s1);
    var s2 := MakeDir(s1, q, ino);
    LeadsOne(s1, Outside(MakeQueue(q, ino)));
    var s3 := EnterWatch(s2);
    LeadsOne(s2, Do(ScanCheck));
    LeadsOn(s1, [Outside(MakeQueue(q, ino))], s2, [Do(ScanCheck)], s3);
    t := RemoveDir(s3, q);
    LeadsOne(s3, Outside(RemoveQueue(q)));
    LeadsOn(s1, [Outside(MakeQueue(q, ino))] + [Do(ScanCheck)], s3, [Outside(RemoveQueue(q))], t);
    steps := [Outside(MakeQueue(q, ino))] + [Do(ScanCheck)] + [Outside(RemoveQueue(q))];
    EnteredStale(s, s1, t, q, ino);
  }

  lemma EnteredStale(s: State, s1: State, t: State, q: string, ino: nat)
    requires Sound(s) && q in s.queues && s.queues[q] in s.kernel && s.task.Watching? && s.task.queue == q && s1 == RemoveDir(s, q)
    requires FreshIno(s1, ino) && t == RemoveDir(EnterWatch(MakeDir(s1, q, ino)), q)
    requires |s1.inbox| == |s.inbox| + 1 && s1.inbox[|s.inbox|].mask == DeleteSelf && forall i | 0 <= i < |s.inbox| :: s1.inbox[i].mask != DeleteSelf
    ensures Stale(t, q, s.task.wd, ino, |s.inbox|)
  {
    assert t.mem.watches[0].name == q && t.mem.watches[0].wd == s.task.wd && t.mem.watches[0].ino == ino;
    assert Listed(t.mem.watches, q, s.task.wd, ino);
    assert t.inbox == s1.inbox + [Msg(ROOT_WD, Create)];
    assert forall pid :: !Opens(t.workers, pid, ino);
  }

  lemma BecomesStale(s: State, q: string) returns (steps: seq<Step>, t: State, wd: nat, ino: nat)
    requires Sound(s) && Lasting(s) && q in s.queues && s.queues[q] in s.kernel
    ensures Leads(RemoveDir(s, q), steps, t) && Stale(t, q, wd, ino, |s.inbox|) && (t.task.Watching? ==> t.task.queue in t.queues)
  {
    if s.task.Watching? && s.task.queue == q {
      steps, t, ino := EnteredLate(s, q);
      wd := s.task.wd;
    } else {
      steps, t, wd, ino := [], RemoveDir(s, q), s.kernel[s.queues[q]], s.queues[q];
      RemovalLeavesStale(s, q);
    }
  }

  /** From every sound state: after a watched queue directory is removed the run can go on, without another such
      removal, to two workers that run the handlers of this queue at the same time. */
  lemma RemovalCanBreak(s: State, q: string) returns (more: seq<Step>, t: State)
    requires Sound(s) && Lasting(s) && q in s.queues && s.queues[q] in s.kernel
    ensures Leads(RemoveDir(s, q), more, t) && TwoHandlers(t, q)
  {
    var s1 := RemoveDir(s, q);
    LastingRemove(s, q);
    var a, s2, wd, ino := BecomesStale(s, q);
    LastingRun(s1, a, s2);
    var b, s3 := Finish(s2, q, wd, ino, |s.inbox|);
    LeadsOn(s1, a, s2, b, s3);
    var c;
    c, t := StaleBreaks(s3, q, wd, ino, |s.inbox|);
    LeadsOn(s1, a + b, s3, c, t);
    more := a + b + c;
  }

  /** Some run that starts by removing q, and removes no other watched queue, has two workers for one queue. */
  ghost predicate CanBreak(s: State, q: string)
    requires q in s.queues
  {
    exists more, t :: Leads(RemoveDir(s, q), more, t) && !OneWorkerPerQueue(t)
  }

  lemma TwoHandlersBreak(s: State, q: string)
    requires TwoHandlers(s, q)
    ensures !OneWorkerPerQueue(s)
  {
  }

  lemma UnwatchedRemovalHarmless(s: State, q: string)
    requires Sound(s) && Safe(s) && Linked(s) && q in s.queues && s.queues[q] !in s.kernel
    ensures !CanBreak(s, q)
  {
    var step := Outside(RemoveQueue(q));
    SoundStep(s, step);
    SafeStep(s, step);
    LinkedStep(s, step);
    forall more, t | Leads(RemoveDir(s, q), more, t) ensures OneWorkerPerQueue(t) {
      SoundRun(RemoveDir(s, q), more);
      SoundIsOneWorker(t);
    }
  }

  /** In every state of every run in which no watched queue was removed before: removing a queue directory
      can lead to two workers for one queue if and only if inotify watches the directory. */
  lemma RemovalBreaksIffWatched(s: State, steps: seq<Step>, q: string)
    requires Init(s) && CanRun(s, steps) && KeepsWatched(s, steps) && q in Run(s, steps).queues
    ensures var t := Run(s, steps); CanBreak(t, q) <==> t.queues[q] in t.kernel
  {
    InitSound(s);
    SoundRun(s, steps);
    HeldRun(s, steps);
    var t := Run(s, steps);
    if t.queues[q] in t.kernel {
      var more, u := RemovalCanBreak(t, q);
      TwoHandlersBreak(u, q);
    } else {
      UnwatchedRemovalHarmless(t, q);
    }
  }
}

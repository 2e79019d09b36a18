/** Two promises of ueventd that some runs break: no two handlers for one queue at the
    same time, and no handler for a paused queue.  The lemmas build runs: the daemon reads
    its messages and scans, a worker goes through process_events.  From these follow, for
    every reachable state, runs that break the promise. */
module UeventRuns {
  import opened UeventDaemon
  import opened UeventProtocol
  import opened UeventDelivery
  import opened UeventPause

  // ----- parts of runs -----

  lemma {:induction false} KeepsAppend(s: State, steps: seq<Step>, more: seq<Step>)
    requires CanRun(s, steps) && CanRun(Run(s, steps), more) && KeepsWatched(s, steps) && KeepsWatched(Run(s, steps), more)
    ensures CanRun(s, steps + more) && KeepsWatched(s, steps + more)
    decreases |steps|
  {
    RunAppend(s, steps, more);
    if steps == [] {
      assert steps + more == more;
    } else {
      assert (steps + more)[1..] == steps[1..] + more;
      KeepsAppend(Apply(s, steps[0]), steps[1..], more);
    }
  }

  /** steps lead from s to t without removing a watched queue. */
  ghost predicate Leads(s: State, steps: seq<Step>, t: State) {
    CanRun(s, steps) && Run(s, steps) == t && KeepsWatched(s, steps)
  }

  lemma LeadsOne(s: State, step: Step)
    requires Enabled(s, step) && !RemovesWatched(s, step)
    ensures Leads(s, [step], Apply(s, step))
  {
    RunOne(s, step);
    assert [step][1..] == [];
  }

  lemma LeadsOn(s: State, steps: seq<Step>, t: State, more: seq<Step>, u: State)
    requires Leads(s, steps, t) && Leads(t, more, u)
    ensures Leads(s, steps + more, u)
  {
    RunAppend(s, steps, more);
    KeepsAppend(s, steps, more);
  }

  /** What every reachable state has, directories coming and going. */
  ghost predicate Lasting(s: State) {
    Safe(s) && Linked(s) && Held(s)
  }

  lemma LastingRun(s: State, steps: seq<Step>, t: State)
    requires Lasting(s) && Leads(s, steps, t)
    ensures Lasting(t)
  {
    SafeRun(s, steps);
    LinkedRun(s, steps);
    HeldRun(s, steps);
  }

  lemma {:induction false} Beyond(x: set<nat>) returns (n: nat)
    ensures n >= FIRST_QUEUE_INO && forall m | m in x :: m < n
    decreases |x|
  {
    if x == {} {
      n := FIRST_QUEUE_INO;
    } else {
      var m :| m in x;
      n := Beyond(x - {m});
      n := if m < n then n else m + 1;
      assert forall k | k in x :: k == m || k in x - {m};
    }
  }

  lemma SomeFreshIno(s: State) returns (ino: nat)
    ensures FreshIno(s, ino)
  {
    var open := set pid | pid in s.workers && s.workers[pid].pc.Moving? :: s.workers[pid].pc.ino;
    ino := Beyond(s.kernel.Keys + s.queues.Values + open);
  }

  // ----- the daemon reads and scans -----

  /** Only the daemon and the kernel's watches have changed. */
  ghost predicate DaemonOnly(s: State, t: State) {
    t == s.(mem := t.mem, task := t.task, inbox := t.inbox, kernel := t.kernel, nextWd := t.nextWd)
  }

  /** A dirty watch of q with a descriptor from limit on is in the list, paused by ".all" at most. */
  ghost predicate Arrived(m: Memory, q: string, limit: nat) {
    exists i :: 0 <= i < |m.watches| && ArrivedAt(m, i, q, limit)
  }

  ghost predicate ArrivedAt(m: Memory, i: nat, q: string, limit: nat)
    requires i < |m.watches|
  {
    var w := m.watches[i];
    DirtyQueue(w) && w.name == q && w.wd >= limit && (w.paused ==> m.pauseAll)
  }

  /** Queue q holds events, and it is not watched yet or such a watch is in the list. */
  ghost predicate Arriving(s: State, q: string, limit: nat) {
    && q in s.queues && FilesIn(s.files, q) != {} && limit <= s.nextWd
    && (s.queues[q] !in s.kernel || Arrived(s.mem, q, limit))
  }

  lemma EnterArrived(m: Memory, m': Memory, q: string, limit: nat)
    requires m'.watches != [] && m'.watches[1..] == m.watches && m'.pauseAll == m.pauseAll
    requires Arrived(m, q, limit) || ArrivedAt(m', 0, q, limit)
    ensures Arrived(m', q, limit)
  {
    if !ArrivedAt(m', 0, q, limit) {
      var i :| 0 <= i < |m.watches| && ArrivedAt(m, i, q, limit);
      assert m'.watches[i + 1] == m.watches[i];
      assert ArrivedAt(m', i + 1, q, limit);
    }
  }

  /** A queue watch of this name, descriptor and inode is in the list. */
  ghost predicate Listed(ws: seq<Watch>, q: string, wd: nat, ino: nat) {
    exists i :: 0 <= i < |ws| && ws[i].kind.QueueDir? && ws[i].name == q && ws[i].wd == wd && ws[i].ino == ino
  }

  /** No watch is lost. */
  ghost predicate NoneLost(ws: seq<Watch>, ws': seq<Watch>) {
    forall q, wd, ino {:trigger Listed(ws', q, wd, ino)} :: Listed(ws, q, wd, ino) ==> Listed(ws', q, wd, ino)
  }

  lemma ListedIsNamed(ws: seq<Watch>, q: string, wd: nat, ino: nat)
    requires Listed(ws, q, wd, ino)
    ensures Named(ws, q)
  {
    assert Entered(ws, q, wd);
    EnteredIsNamed(ws, q, wd);
  }

  lemma EnterLosesNone(w: Watch, ws: seq<Watch>)
    ensures NoneLost(ws, [w] + ws)
  {
    forall q, wd, ino | Listed(ws, q, wd, ino) ensures Listed([w] + ws, q, wd, ino) {
      var i :| 0 <= i < |ws| && ws[i].kind.QueueDir? && ws[i].name == q && ws[i].wd == wd && ws[i].ino == ino;
      assert ([w] + ws)[i + 1] == ws[i];
    }
  }

  lemma SameListLosesNone(ws: seq<Watch>, ws': seq<Watch>)
    requires SameList(ws, ws')
    ensures NoneLost(ws, ws')
  {
    forall q, wd, ino | Listed(ws, q, wd, ino) ensures Listed(ws', q, wd, ino) {
      var i :| 0 <= i < |ws| && ws[i].kind.QueueDir? && ws[i].name == q && ws[i].wd == wd && ws[i].ino == ino;
      assert ws'[i].kind.QueueDir?;
    }
  }

  lemma LosesNoneOn(ws: seq<Watch>, ws': seq<Watch>, ws'': seq<Watch>)
    requires NoneLost(ws, ws') && NoneLost(ws', ws'')
    ensures NoneLost(ws, ws'')
  {
    forall q, wd, ino | Listed(ws, q, wd, ino) ensures Listed(ws'', q, wd, ino) {
      assert Listed(ws', q, wd, ino);
    }
  }

  /** inotify watches what it watched, and queue directories. */
  ghost predicate WatchesQueues(s: State, t: State) {
    forall i | i in t.kernel :: i in s.kernel || i in s.queues.Values
  }

  /** watch_path on one directory, from inotify_add_watch to the end. */
  function WatchOne(s: State, p: string, back: Task): State
    requires p in s.queues
  {
    if s.queues[p] in s.kernel then s.(task := back) else EnterWatch(AddKernelWatch(s, p, back))
  }

  /** What a scan leaves as it is: no other process is touched, no watch is lost, q stays or gets listed. */
  ghost predicate Tracks(s: State, t: State, q: string, limit: nat) {
    && DaemonOnly(s, t) && t.inbox == s.inbox && t.mem.pauseAll == s.mem.pauseAll && s.kernel.Keys <= t.kernel.Keys
    && NoneLost(s.mem.watches, t.mem.watches) && WatchesQueues(s, t)
    && (Arriving(s, q, limit) ==> Arriving(t, q, limit))
  }

  lemma TracksOn(s: State, t: State, u: State, q: string, limit: nat)
    requires Tracks(s, t, q, limit) && Tracks(t, u, q, limit)
    ensures Tracks(s, u, q, limit)
  {
    LosesNoneOn(s.mem.watches, t.mem.watches, u.mem.watches);
  }

  /** Between s and t queue p was entered into the list. */
  ghost predicate EntersQueue(s: State, t: State, p: string) {
    && p in s.queues && s.queues[p] !in s.kernel
    && t == s.(mem := t.mem, task := t.task, kernel := s.kernel[s.queues[p] := s.nextWd], nextWd := s.nextWd + 1)
    && t.mem.pauseAll == s.mem.pauseAll
    && t.mem.watches == [Watch(p, QueueDir, s.nextWd, s.queues[p], FilesIn(s.files, p) != {}, s.mem.pauseAll, 0)] + s.mem.watches
  }

  lemma WatchOneEnters(s: State, p: string, back: Task)
    requires p in s.queues && s.queues[p] !in s.kernel
    ensures EntersQueue(s, WatchOne(s, p, back), p) && WatchOne(s, p, back).task == back
  {
  }

  lemma EnterArriving(s: State, t: State, q: string, limit: nat)
    requires Arriving(s, q, limit) && t.mem.watches != [] && t.mem.watches[1..] == s.mem.watches && t.mem.pauseAll == s.mem.pauseAll
    requires t.queues == s.queues && t.files == s.files && t.nextWd >= s.nextWd
    requires t.queues[q] in t.kernel ==> t.queues[q] in s.kernel || ArrivedAt(t.mem, 0, q, limit)
    ensures Arriving(t, q, limit)
  {
    if t.queues[q] in t.kernel {
      EnterArrived(s.mem, t.mem, q, limit);
    }
  }

  lemma EnterTracks(s: State, t: State, p: string, q: string, limit: nat)
    requires EntersQueue(s, t, p) && DistinctInodes(s.queues)
    ensures Tracks(s, t, q, limit)
  {
    EnterLosesNone(t.mem.watches[0], s.mem.watches);
    assert s.queues[p] in s.queues.Values;
    if Arriving(s, q, limit) {
      EnterArriving(s, t, q, limit);
    }
  }

  lemma WatchOneTracks(s: State, p: string, back: Task, q: string, limit: nat)
    requires p in s.queues && DistinctInodes(s.queues)
    ensures Tracks(s, WatchOne(s, p, back), q, limit)
  {
    if s.queues[p] in s.kernel {
      TaskTracks(s, back, q, limit);
    } else {
      WatchOneEnters(s, p, back);
      EnterTracks(s, WatchOne(s, p, back), p, q, limit);
    }
  }

  lemma TaskTracks(s: State, back: Task, q: string, limit: nat)
    ensures Tracks(s, s.(task := back), q, limit)
  {
  }

  lemma WatchOneDone(s: State, p: string, back: Task)
    requires p in s.queues
    ensures s.queues[p] in WatchOne(s, p, back).kernel && WatchOne(s, p, back).task == back
  {
    if s.queues[p] !in s.kernel {
      WatchOneEnters(s, p, back);
    }
  }

  lemma ScanOneLeads(s: State, p: string) returns (steps: seq<Step>)
    requires s.task.Scanning? && p in s.queues
    ensures Leads(s, steps, WatchOne(s, p, Scanning(s.task.todo - {p})))
  {
    steps := [Do(ScanOne(p))];
    LeadsOne(s, Do(ScanOne(p)));
    if s.queues[p] !in s.kernel {
      var s' := AddKernelWatch(s, p, Scanning(s.task.todo - {p}));
      LeadsOne(s', Do(ScanCheck));
      LeadsOn(s, steps, s', [Do(ScanCheck)], EnterWatch(s'));
      steps := steps + [Do(ScanCheck)];
    }
  }

  lemma ScanEndLeads(s: State, q: string, limit: nat)
    requires s.task.Scanning? && s.task.todo !! s.queues.Keys
    ensures Leads(s, [Do(ScanEnd)], s.(task := Idle)) && Tracks(s, s.(task := Idle), q, limit)
  {
    LeadsOne(s, Do(ScanEnd));
  }

  /** Every queue of todo that exists is watched in t. */
  ghost predicate AllWatched(todo: set<string>, t: State) {
    forall p | p in todo && p in t.queues :: t.queues[p] in t.kernel
  }

  /** The scan under way can be finished; every queue it was to look at is watched then. */
  lemma {:induction false} ScanAll(s: State, q: string, limit: nat) returns (steps: seq<Step>, t: State)
    requires s.task.Scanning? && DistinctInodes(s.queues)
    ensures Leads(s, steps, t) && Tracks(s, t, q, limit) && t.task == Idle && AllWatched(s.task.todo, t)
    decreases s.task.todo
  {
    if s.task.todo !! s.queues.Keys {
      steps, t := [Do(ScanEnd)], s.(task := Idle);
      ScanEndLeads(s, q, limit);
    } else {
      var p :| p in s.task.todo && p in s.queues.Keys;
      steps, t := ScanFrom(s, p, q, limit);
    }
  }

  lemma {:induction false} ScanFrom(s: State, p: string, q: string, limit: nat) returns (steps: seq<Step>, t: State)
    requires s.task.Scanning? && DistinctInodes(s.queues) && p in s.task.todo && p in s.queues
    ensures Leads(s, steps, t) && Tracks(s, t, q, limit) && t.task == Idle && AllWatched(s.task.todo, t)
    decreases s.task.todo, 0
  {
    var back := Scanning(s.task.todo - {p});
    var s' := WatchOne(s, p, back);
    var first := ScanOneLeads(s, p);
    WatchOneTracks(s, p, back, q, limit);
    WatchOneDone(s, p, back);
    var more;
    more, t := ScanAll(s', q, limit);
    LeadsOn(s, first, s', more, t);
    TracksOn(s, s', t, q, limit);
    steps := first + more;
  }

  lemma MessageTracks(s: State, q: string, limit: nat)
    requires s.task == Idle && s.inbox != []
    ensures s.inbox[0].mask != DeleteSelf ==> NoneLost(s.mem.watches, TakeMessage(s).mem.watches)
    ensures Arriving(s, q, limit) && s.queues[q] !in s.kernel ==> Arriving(TakeMessage(s), q, limit)
    ensures DaemonOnly(s, TakeMessage(s)) && TakeMessage(s).kernel.Keys <= s.kernel.Keys
  {
    if s.inbox[0].mask != DeleteSelf {
      InotifySameList(s.mem, s.inbox[0].wd, s.inbox[0].mask, s.pauses);
      SameListLosesNone(s.mem.watches, TakeMessage(s).mem.watches);
    }
  }

  /** The daemon can read one message and do what it asks for. */
  lemma ReadOne(s: State, q: string, limit: nat) returns (steps: seq<Step>, t: State)
    requires Linked(s) && Ready(s) && s.inbox != []
    ensures Leads(s, steps, t) && DaemonOnly(s, t) && Ready(t) && t.inbox == s.inbox[1..] && WatchesQueues(s, t)
    ensures s.inbox[0].mask != DeleteSelf ==> NoneLost(s.mem.watches, t.mem.watches)
    ensures Arriving(s, q, limit) && s.queues[q] !in s.kernel ==> Arriving(t, q, limit)
    ensures s.inbox[0] == Msg(ROOT_WD, Create) ==> AllWatched(s.queues.Keys, t)
  {
    var s' := TakeMessage(s);
    LeadsOne(s, Do(ReadInotify));
    steps := [Do(ReadInotify)];
    MessageTracks(s, q, limit);
    RootMessageScans(s);
    if s'.task.Scanning? {
      var more;
      more, t := ScanAll(s', q, limit);
      LeadsOn(s, steps, s', more, t);
      steps := steps + more;
      if s.inbox[0].mask != DeleteSelf {
        LosesNoneOn(s.mem.watches, s'.mem.watches, t.mem.watches);
      }
    } else {
      t := s';
    }
  }

  lemma RootMessageScans(s: State)
    requires Linked(s) && s.inbox != []
    ensures s.inbox[0] == Msg(ROOT_WD, Create) ==> TakeMessage(s).task == Scanning(s.queues.Keys)
    ensures TakeMessage(s).task == Idle || TakeMessage(s).task == Scanning(s.queues.Keys)
  {
    var ws := s.mem.watches;
    assert IsWd(ROOT_WD)(ws[|ws| - 2]);
  }

  /** The daemon can read the first n messages when none of them drops a watch. */
  lemma {:induction false} ReadMany(s: State, n: nat) returns (steps: seq<Step>, t: State)
    requires Lasting(s) && Ready(s) && n <= |s.inbox| && forall i | 0 <= i < n :: s.inbox[i].mask != DeleteSelf
    ensures Leads(s, steps, t) && DaemonOnly(s, t) && Ready(t) && t.inbox == s.inbox[n..] && Lasting(t)
    ensures NoneLost(s.mem.watches, t.mem.watches) && WatchesQueues(s, t)
    decreases n
  {
    if n == 0 {
      steps, t := [], s;
    } else {
      var first, s' := ReadOne(s, "", s.nextWd);
      LastingRun(s, first, s');
      var more;
      more, t := ReadMany(s', n - 1);
      LeadsOn(s, first, s', more, t);
      LosesNoneOn(s.mem.watches, s'.mem.watches, t.mem.watches);
      steps := first + more;
    }
  }

  // ----- a worker at work -----

  /** Only worker pid, its files and its events have changed; it is at pc now. */
  ghost predicate WorkerOnly(s: State, t: State, pid: nat, pc: Pc) {
    && pid in s.workers
    && t == s.(files := t.files, events := t.events, pipe := t.pipe, workers := s.workers[pid := s.workers[pid].(pc := pc)])
  }

  lemma WorkerOnlyOn(s: State, t: State, u: State, pid: nat, pc: Pc, pc': Pc)
    requires WorkerOnly(s, t, pid, pc) && WorkerOnly(t, u, pid, pc')
    ensures WorkerOnly(s, u, pid, pc')
  {
  }

  /** A worker can move every file out of its directory. */
  lemma {:induction false} MoveAll(s: State, pid: nat) returns (steps: seq<Step>, t: State)
    requires AtMoving(s, pid) && DirThere(s, pid)
    ensures Leads(s, steps, t) && AtMoving(t, pid) && WorkerOnly(s, t, pid, t.workers[pid].pc)
    ensures DirThere(t, pid) && FilesIn(t.files, t.workers[pid].queue) == {}
    ensures FilesIn(s.files, s.workers[pid].queue) + FilesIn(s.events, s.workers[pid].queue) <= FilesIn(t.events, s.workers[pid].queue)
    decreases FilesIn(s.files, s.workers[pid].queue)
  {
    var q := s.workers[pid].queue;
    if FilesIn(s.files, q) == {} {
      steps, t := [], s;
      assert s.workers[pid := s.workers[pid]] == s.workers;
    } else {
      var e :| e in FilesIn(s.files, q);
      var s' := MoveFile(s, pid, e);
      LeadsOne(s, Work(pid, Move(e)));
      var more;
      more, t := MoveAll(s', pid);
      LeadsOn(s, [Work(pid, Move(e))], s', more, t);
      steps := [Work(pid, Move(e))] + more;
    }
  }

  /** ... and get to the check of its events. */
  lemma FinishMoving(s: State, pid: nat) returns (steps: seq<Step>, t: State)
    requires AtMoving(s, pid)
    ensures Leads(s, steps, t) && WorkerOnly(s, t, pid, Moved)
    ensures DirThere(s, pid) ==> FilesIn(s.files, s.workers[pid].queue) <= FilesIn(t.events, s.workers[pid].queue)
  {
    var s', more := s, [];
    if DirThere(s, pid) {
      more, s' := MoveAll(s, pid);
    } else {
      assert s.workers[pid := s.workers[pid]] == s.workers;
    }
    t := WithPc(s', pid, Moved);
    LeadsOne(s', Work(pid, EndMove));
    LeadsOn(s, more, s', [Work(pid, EndMove)], t);
    steps := more + [Work(pid, EndMove)];
  }

  /** A worker whose directory holds events can start its handler. */
  lemma StartHandler(s: State, pid: nat) returns (steps: seq<Step>, t: State)
    requires At(s, pid, Starting) && s.workers[pid].queue in s.queues && FilesIn(s.files, s.workers[pid].queue) != {}
    ensures Leads(s, steps, t) && WorkerOnly(s, t, pid, Handling)
  {
    var s1 := OpenDir(s, pid);
    LeadsOne(s, Work(pid, Open));
    var more, s2 := FinishMoving(s1, pid);
    LeadsOn(s, [Work(pid, Open)], s1, more, s2);
    t := WithPc(s2, pid, Handling);
    assert FilesIn(s2.events, s.workers[pid].queue) != {};
    LeadsOne(s2, Work(pid, Check));
    LeadsOn(s, [Work(pid, Open)] + more, s2, [Work(pid, Check)], t);
    steps := [Work(pid, Open)] + more + [Work(pid, Check)];
  }

  function Rank(pc: Pc): nat {
    match pc
    case Starting => 6
    case Moving(_, _) => 5
    case Moved => 4
    case Handling => 3
    case Handled => 2
    case Signalling => 1
    case Exited => 0
  }

  /** What a worker that is not moving files does next. */
  function NextAct(pc: Pc, there: bool): Act {
    match pc
    case Starting => if there then Open else GiveUp
    case Moved => Check
    case Handling => HandlerDone
    case Handled => Recheck
    case _ => Signal
  }

  lemma NextActCan(s: State, pid: nat)
    requires pid in s.workers && !s.workers[pid].pc.Exited? && !s.workers[pid].pc.Moving?
    ensures CanAct(s, pid, NextAct(s.workers[pid].pc, s.workers[pid].queue in s.queues))
  {
  }

  lemma ActAdvances(s: State, pid: nat, act: Act)
    requires CanAct(s, pid, act) && (act.Open? || act.GiveUp? || act.Check? || act.HandlerDone? || act.Recheck? || act.Signal?)
    ensures var t := Acted(s, pid, act);
            pid in t.workers && WorkerOnly(s, t, pid, t.workers[pid].pc) && Rank(t.workers[pid].pc) < Rank(s.workers[pid].pc)
  {
  }

  /** A worker can get on to a later stage. */
  lemma GetOn(s: State, pid: nat) returns (steps: seq<Step>, t: State)
    requires pid in s.workers && !s.workers[pid].pc.Exited?
    ensures Leads(s, steps, t) && pid in t.workers && WorkerOnly(s, t, pid, t.workers[pid].pc)
    ensures Rank(t.workers[pid].pc) < Rank(s.workers[pid].pc)
  {
    if AtMoving(s, pid) {
      steps, t := FinishMoving(s, pid);
    } else {
      var act := NextAct(s.workers[pid].pc, s.workers[pid].queue in s.queues);
      NextActCan(s, pid);
      ActAdvances(s, pid, act);
      LeadsOne(s, Work(pid, act));
      steps, t := [Work(pid, act)], Acted(s, pid, act);
    }
  }

  /** Every worker can come to its end. */
  lemma {:induction false} Retire(s: State, pid: nat) returns (steps: seq<Step>, t: State)
    requires pid in s.workers
    ensures Leads(s, steps, t) && WorkerOnly(s, t, pid, Exited)
    decreases Rank(s.workers[pid].pc)
  {
    if s.workers[pid].pc.Exited? {
      steps, t := [], s;
      assert s.workers[pid := s.workers[pid].(pc := Exited)] == s.workers;
    } else {
      var first, s' := GetOn(s, pid);
      var more;
      more, t := Retire(s', pid);
      LeadsOn(s, first, s', more, t);
      WorkerOnlyOn(s, s', t, pid, s'.workers[pid].pc, Exited);
      steps := first + more;
    }
  }

  // ----- two workers -----

  /** Directories, messages and descriptors are as before. */
  ghost predicate SameOutside(s: State, t: State) {
    && t.queues == s.queues && t.pauses == s.pauses && t.inbox == s.inbox && t.kernel == s.kernel && t.nextWd == s.nextWd
    && t.task == s.task && t.booting == s.booting
  }

  /** The watch that q's name leads to has no worker. */
  ghost predicate Free(ws: seq<Watch>, q: string) {
    Named(ws, q) && ws[First(ws, IsQueueNamed(q))].pid == 0
  }

  lemma ReapFrees(m: Memory, q: string)
    requires Named(m.watches, q)
    ensures Free(Reap(m, m.watches[First(m.watches, IsQueueNamed(q))].pid).watches, q)
  {
    var pid := m.watches[First(m.watches, IsQueueNamed(q))].pid;
    SameFirst(m.watches, Reap(m, pid).watches, IsQueueNamed(q));
  }

  /** The worker of a watch can end and be reaped. */
  lemma FreeWatch(s: State, q: string) returns (steps: seq<Step>, t: State)
    requires Lasting(s) && Ready(s) && Named(s.mem.watches, q)
    ensures Leads(s, steps, t) && SameOutside(s, t) && Lasting(t) && Free(t.mem.watches, q)
  {
    var pid := s.mem.watches[First(s.mem.watches, IsQueueNamed(q))].pid;
    if pid == 0 {
      steps, t := [], s;
    } else {
      var more, s' := Retire(s, pid);
      LeadsOne(s', Do(ReapWorker(pid)));
      t := s'.(mem := Reap(s'.mem, pid), workers := s'.workers - {pid});
      LeadsOn(s, more, s', [Do(ReapWorker(pid))], t);
      steps := more + [Do(ReapWorker(pid))];
      ReapFrees(s.mem, q);
      LastingRun(s, steps, t);
    }
  }

  /** The state in which the rename of an event into the new directory of q is due. */
  function DirRemade(s: State, q: string, ino: nat): State {
    MakeDir(s, q, ino).(task := Delivering(q, "e"))
  }

  lemma RemakeDir(s: State, q: string, ino: nat) returns (steps: seq<Step>)
    requires Ready(s) && q !in s.queues && FreshIno(s, ino) && Named(s.mem.watches, q)
    ensures Leads(s, steps, DirRemade(s, q, ino))
  {
    var s1 := EnsureDir(s, q, "e", ino);
    LeadsOne(s, Do(TimerMkdir(q, "e", ino)));
    LeadsOne(s1, Do(TimerWatch));
    LeadsOn(s, [Do(TimerMkdir(q, "e", ino))], s1, [Do(TimerWatch)], DirRemade(s, q, ino));
    steps := [Do(TimerMkdir(q, "e", ino))] + [Do(TimerWatch)];
  }

  lemma MarkKeepsFree(m: Memory, q: string)
    requires Free(m.watches, q)
    ensures Free(OnTimerMove(m, q).watches, q) && Waits(OnTimerMove(m, q), q)
  {
    TimerMoveWaits(m, q, q);
    MarkKeepsFirst(m, First(m.watches, IsQueueNamed(q)), q);
  }

  /** A due timer event makes the directory again and marks the watch that its name leads to. */
  lemma TimerArrives(s: State, q: string) returns (steps: seq<Step>, t: State)
    requires Lasting(s) && Ready(s) && q !in s.queues && Free(s.mem.watches, q)
    ensures Leads(s, steps, t) && Lasting(t) && Ready(t)
    ensures q in t.queues && t.queues[q] !in t.kernel && FilesIn(t.files, q) != {} && t.pauses == s.pauses
    ensures t.inbox == s.inbox + [Msg(ROOT_WD, Create)]
    ensures Free(t.mem.watches, q) && Waits(t.mem, q)
  {
    var ino := SomeFreshIno(s);
    var first := RemakeDir(s, q, ino);
    var s1 := DirRemade(s, q, ino);
    t := Deliver(s1);
    LeadsOne(s1, Do(TimerRename));
    LeadsOn(s, first, s1, [Do(TimerRename)], t);
    steps := first + [Do(TimerRename)];
    LastingRun(s, steps, t);
    MarkKeepsFree(s.mem, q);
  }

  lemma NotPaused(s: State, i: nat)
    requires Lasting(s) && Ready(s) && !Pending(s.inbox) && i < |s.mem.watches| && s.mem.watches[i].kind.QueueDir?
    requires !PauseWanted(s.pauses, s.mem.watches[i].name)
    ensures !s.mem.watches[i].paused
  {
    HeldFlags(s);
  }

  lemma SpawnLeads(s: State, i: nat) returns (t: State, pid: nat)
    requires Ready(s) && i < |s.mem.watches| && Eligible(s.mem.watches[i])
    ensures pid !in s.workers && t == StartWorker(s, i, pid) && Leads(s, [Do(SpawnWorker(i, pid))], t)
  {
    pid := Beyond(s.workers.Keys);
    t := StartWorker(s, i, pid);
    LeadsOne(s, Do(SpawnWorker(i, pid)));
  }

  /** The daemon can start a worker for watch i, and the worker its handler. */
  lemma ServeWatch(s: State, i: nat) returns (steps: seq<Step>, t: State, pid: nat)
    requires Lasting(s) && Ready(s) && i < |s.mem.watches| && Eligible(s.mem.watches[i])
    requires var q := s.mem.watches[i].name; q in s.queues && FilesIn(s.files, q) != {}
    ensures Leads(s, steps, t) && SameOutside(s, t) && Lasting(t)
    ensures pid !in s.workers && t.workers == s.workers[pid := Worker(s.mem.watches[i].wd, s.mem.watches[i].name, Handling)]
  {
    var s1, more;
    s1, pid := SpawnLeads(s, i);
    more, t := StartHandler(s1, pid);
    LeadsOn(s, [Do(SpawnWorker(i, pid))], s1, more, t);
    steps := [Do(SpawnWorker(i, pid))] + more;
    LastingRun(s, steps, t);
  }

  /** Two workers run the handlers of queue q at the same time. */
  ghost predicate TwoHandlers(s: State, q: string) {
    exists p, p' :: p != p' && At(s, p, Handling) && At(s, p', Handling) && s.workers[p].queue == s.workers[p'].queue == q
  }

  /** Reading a message other than Create does not make the daemon watch anything. */
  lemma GoneMessage(s: State, q: string)
    requires Linked(s) && Ready(s) && s.inbox != [] && s.inbox[0].mask == DeleteSelf && q in s.queues && s.queues[q] !in s.kernel
    ensures var t := TakeMessage(s);
            DaemonOnly(s, t) && Ready(t) && t.inbox == s.inbox[1..] && t.queues[q] !in t.kernel && t.nextWd == s.nextWd
  {
  }

  /** At most the message that a queue directory is gone. */
  ghost predicate AtMostGone(inbox: seq<Msg>) {
    inbox == [] || (|inbox| == 1 && inbox[0].mask == DeleteSelf && inbox[0].wd != PAUSE_WD)
  }

  /** A new directory of q holds events; the message about it is unread, and maybe the one about the old directory. */
  ghost predicate Remade(s: State, q: string) {
    && q in s.queues && s.queues[q] !in s.kernel && FilesIn(s.files, q) != {} && !PauseWanted(s.pauses, q)
    && s.inbox != [] && AtMostGone(s.inbox[..|s.inbox| - 1]) && s.inbox[|s.inbox| - 1] == Msg(ROOT_WD, Create)
  }

  /** The message about the new directory becomes the next one. */
  lemma SkipGone(s: State, q: string) returns (steps: seq<Step>, t: State)
    requires Lasting(s) && Ready(s) && Remade(s, q)
    ensures Leads(s, steps, t) && DaemonOnly(s, t) && Lasting(t) && Ready(t) && t.inbox == [Msg(ROOT_WD, Create)]
    ensures t.queues[q] !in t.kernel && t.nextWd == s.nextWd
  {
    if |s.inbox| == 1 {
      steps, t := [], s;
    } else {
      t := TakeMessage(s);
      assert s.inbox[..1][0] == s.inbox[0];
      GoneMessage(s, q);
      LeadsOne(s, Do(ReadInotify));
      steps := [Do(ReadInotify)];
      LastingRun(s, steps, t);
    }
  }

  /** The daemon finds the new directory and watches it. */
  lemma WatchAgain(s: State, q: string) returns (steps: seq<Step>, t: State)
    requires Lasting(s) && Ready(s) && Remade(s, q)
    ensures Leads(s, steps, t) && DaemonOnly(s, t) && Lasting(t) && Ready(t) && t.inbox == [] && Arrived(t.mem, q, s.nextWd)
  {
    var first, s1 := SkipGone(s, q);
    var more;
    more, t := ReadOne(s1, q, s.nextWd);
    LeadsOn(s, first, s1, more, t);
    steps := first + more;
    LastingRun(s, steps, t);
  }

  /** A queue that has just been entered can get a worker unless ".all" is in the pause directory. */
  lemma ArrivedIsEligible(s: State, q: string, limit: nat) returns (i: nat)
    requires Lasting(s) && Ready(s) && s.inbox == [] && ".all" !in s.pauses
    requires Arrived(s.mem, q, limit) && forall pid | pid in s.workers :: s.workers[pid].wd < limit
    ensures i < |s.mem.watches| && s.mem.watches[i].name == q && Eligible(s.mem.watches[i])
  {
    HeldFlags(s);
    i :| 0 <= i < |s.mem.watches| && ArrivedAt(s.mem, i, q, limit);
  }

  lemma ServedTwice(s: State, t: State, q: string, p: nat, p': nat, wd: nat)
    requires At(s, p, Handling) && s.workers[p].queue == q && p' !in s.workers && t.workers == s.workers[p' := Worker(wd, q, Handling)]
    ensures TwoHandlers(t, q)
  {
    assert At(t, p, Handling) && At(t, p', Handling);
  }

  lemma WorkersBelow(s: State)
    requires Safe(s)
    ensures forall pid | pid in s.workers :: s.workers[pid].wd < s.nextWd
  {
  }

  /** With one handler of q at work, a new directory of that name gets a second one. */
  lemma SecondHandler(s: State, q: string, p: nat) returns (steps: seq<Step>, t: State)
    requires Lasting(s) && Ready(s) && Remade(s, q) && At(s, p, Handling) && s.workers[p].queue == q
    ensures Leads(s, steps, t) && TwoHandlers(t, q)
  {
    WorkersBelow(s);
    var first, s1 := WatchAgain(s, q);
    var i := ArrivedIsEligible(s1, q, s.nextWd);
    var more, p';
    more, t, p' := ServeWatch(s1, i);
    LeadsOn(s, first, s1, more, t);
    steps := first + more;
    ServedTwice(s1, t, q, p, p', s1.mem.watches[i].wd);
  }

  /** The stale watch starts a worker for the new directory. */
  lemma FirstHandler(s: State, q: string) returns (steps: seq<Step>, t: State, p: nat)
    requires Lasting(s) && Ready(s) && Remade(s, q) && Free(s.mem.watches, q) && Waits(s.mem, q)
    ensures Leads(s, steps, t) && Lasting(t) && Ready(t) && Remade(t, q)
    ensures At(t, p, Handling) && t.workers[p].queue == q
  {
    var i := First(s.mem.watches, IsQueueNamed(q));
    NotPaused(s, i);
    var more, s1;
    more, s1, p := ServeWatch(s, i);
    t := AddFile(s1, q, "e");
    LeadsOne(s1, Outside(Publish(q, "e")));
    LeadsOn(s, more, s1, [Outside(Publish(q, "e"))], t);
    steps := more + [Outside(Publish(q, "e"))];
    LastingRun(s, steps, t);
  }

  lemma LastingRemove(s: State, q: string)
    requires Lasting(s) && q in s.queues
    ensures Lasting(RemoveDir(s, q))
  {
    SafeStep(s, Outside(RemoveQueue(q)));
    LinkedStep(s, Outside(RemoveQueue(q)));
    HeldStep(s, Outside(RemoveQueue(q)));
  }

  /** The directory of q is gone and its watch still in the list; at most that message is unread. */
  ghost predicate Gone(s: State, q: string) {
    Named(s.mem.watches, q) && q !in s.queues && !PauseWanted(s.pauses, q) && AtMostGone(s.inbox)
  }

  lemma RemovalPosts(s: State, q: string)
    requires Sound(s) && Linked(s) && q in s.queues && s.queues[q] in s.kernel
    ensures var t, n := RemoveDir(s, q), |s.inbox|;
            && |t.inbox| == n + 1 && t.inbox[n].mask == DeleteSelf && t.inbox[n].wd != PAUSE_WD
            && forall i | 0 <= i < n :: t.inbox[i].mask != DeleteSelf
  {
    forall i | 0 <= i < |s.inbox| ensures RemoveDir(s, q).inbox[i].mask != DeleteSelf {
      assert s.inbox[i] in s.inbox;
    }
  }

  /** The removal is announced; the messages before it can be read first. */
  lemma ReadBefore(s: State, q: string) returns (steps: seq<Step>, t: State)
    requires Sound(s) && Lasting(s) && Ready(s) && q in s.queues && s.queues[q] in s.kernel && !PauseWanted(s.pauses, q)
    ensures Leads(RemoveDir(s, q), steps, t) && Lasting(t) && Ready(t) && Gone(t, q)
  {
    var wd, ino := s.kernel[s.queues[q]], s.queues[q];
    LastingRemove(s, q);
    SoundListed(s, q);
    RemovalPosts(s, q);
    steps, t := ReadMany(RemoveDir(s, q), |s.inbox|);
    assert Listed(t.mem.watches, q, wd, ino);
    ListedIsNamed(t.mem.watches, q, wd, ino);
  }

  /** In a sound state a watched queue is in the list, unless it is being entered. */
  lemma SoundListed(s: State, q: string)
    requires Sound(s) && q in s.queues && s.queues[q] in s.kernel && !(s.task.Watching? && s.task.queue == q)
    ensures Listed(s.mem.watches, q, s.kernel[s.queues[q]], s.queues[q])
  {
    ByNameHas(s.mem.watches, q);
  }

  /** A due timer event makes the directory again and marks the watch of the old one. */
  lemma Remake(s: State, q: string) returns (steps: seq<Step>, t: State)
    requires Lasting(s) && Ready(s) && Gone(s, q)
    ensures Leads(s, steps, t) && Lasting(t) && Ready(t) && Remade(t, q) && Free(t.mem.watches, q) && Waits(t.mem, q)
  {
    var a, s1 := FreeWatch(s, q);
    var b;
    b, t := TimerArrives(s1, q);
    LeadsOn(s, a, s1, b, t);
    steps := a + b;
    assert t.inbox[..|t.inbox| - 1] == s.inbox;
  }

  lemma BothHandlers(s: State, q: string) returns (steps: seq<Step>, t: State)
    requires Lasting(s) && Ready(s) && Remade(s, q) && Free(s.mem.watches, q) && Waits(s.mem, q)
    ensures Leads(s, steps, t) && TwoHandlers(t, q)
  {
    var a, s1, p := FirstHandler(s, q);
    var b;
    b, t := SecondHandler(s1, q, p);
    LeadsOn(s, a, s1, b, t);
    steps := a + b;
  }

  /** From every sound state of a daemon in its main loop: after a watched queue directory
      that is not paused is removed, the run can go on, without another such removal, to two
      workers that run the handlers of this queue at the same time. */
  lemma RemovalBreaks(s: State, q: string) returns (more: seq<Step>, t: State)
    requires Sound(s) && Lasting(s) && Ready(s) && q in s.queues && s.queues[q] in s.kernel && !PauseWanted(s.pauses, q)
    ensures Leads(RemoveDir(s, q), more, t) && TwoHandlers(t, q)
  {
    var a, s1 := ReadBefore(s, q);
    var b, s2 := Remake(s1, q);
    LeadsOn(RemoveDir(s, q), a, s1, b, s2);
    var c;
    c, t := BothHandlers(s2, q);
    LeadsOn(RemoveDir(s, q), a + b, s2, c, t);
    more := a + b + c;
  }

  // ----- timer events -----

  /** ensure_queue_dir, step by step. */
  lemma EnsureLeads(s: State, q: string, e: string) returns (steps: seq<Step>, t: State, answer: Answer)
    requires Linked(s) && s.task == Ensuring(q, e) && q in s.queues
    ensures Leads(s, steps, t) && DaemonOnly(s, t) && t.task == Delivering(q, e) && t.inbox == s.inbox && WatchesQueues(s, t)
    ensures t.mem == EnsureWatch(s.mem, q, answer) && Honest(s.mem, q, answer) && (answer.Added? ==> answer.ino == s.queues[q])
  {
    var back := Delivering(q, e);
    steps := [Do(TimerWatch)];
    LeadsOne(s, Do(TimerWatch));
    if Named(s.mem.watches, q) {
      t, answer := s.(task := back), Answer.Watched;
    } else {
      if s.queues[q] in s.kernel {
        WatchedIsNamed(s, q);
      }
      var s1 := AddKernelWatch(s, q, back);
      assert s.queues[q] in s.queues.Values;
      t, answer := EnterWatch(s1), Added(s.nextWd, s.queues[q], FilesIn(s.files, q) != {});
      LeadsOne(s1, Do(ScanCheck));
      LeadsOn(s, steps, s1, [Do(ScanCheck)], t);
      steps := steps + [Do(ScanCheck)];
    }
  }

  lemma MkdirLeads(s: State, q: string, e: string) returns (steps: seq<Step>, t: State)
    requires Lasting(s) && Ready(s)
    ensures Leads(s, steps, t) && Linked(t) && t.mem == s.mem && t.task == Ensuring(q, e) && q in t.queues && !t.booting
  {
    var ino := SomeFreshIno(s);
    steps, t := [Do(TimerMkdir(q, e, ino))], EnsureDir(s, q, e, ino);
    LeadsOne(s, Do(TimerMkdir(q, e, ino)));
    LinkedStep(s, Do(TimerMkdir(q, e, ino)));
  }

  lemma RenameLeads(s: State, q: string, e: string)
    requires s.task == Delivering(q, e) && q in s.queues
    ensures Leads(s, [Do(TimerRename)], Deliver(s)) && e in FilesIn(Deliver(s).files, q) && Deliver(s).mem == OnTimerMove(s.mem, q)
  {
    LeadsOne(s, Do(TimerRename));
  }

  /** When no other process comes in between, the daemon's steps for a due event are
      move_timer_event, with an answer from inotify that agrees with the list. */
  lemma TimerStepsMove(s: State, q: string, e: string) returns (steps: seq<Step>, t: State, answer: Answer)
    requires Lasting(s) && Ready(s)
    ensures Leads(s, steps, t) && Ready(t) && q in t.queues && e in FilesIn(t.files, q)
    ensures t.mem == MoveTimer(s.mem, q, answer, true) && Honest(s.mem, q, answer) && Waits(t.mem, q)
  {
    var a, s1 := MkdirLeads(s, q, e);
    var b, s2;
    b, s2, answer := EnsureLeads(s1, q, e);
    LeadsOn(s, a, s1, b, s2);
    t := Deliver(s2);
    RenameLeads(s2, q, e);
    LeadsOn(s, a + b, s2, [Do(TimerRename)], t);
    steps := a + b + [Do(TimerRename)];
    MoveTimerServes(s.mem, q, answer, true, q);
  }

  // ----- from the start -----

  /** From every initial state the daemon can get to its main loop with every queue watched. */
  lemma Boot(s: State, q: string) returns (steps: seq<Step>, t: State)
    requires Init(s)
    ensures Leads(s, steps, t) && Sound(t) && Lasting(t) && Ready(t) && t.inbox == []
    ensures t.queues == s.queues && t.pauses == s.pauses && AllWatched(s.queues.Keys, t)
  {
    InitSound(s);
    var first, s1 := ScanAll(s, q, s.nextWd);
    t := s1.(mem := ApplyPause(s1.mem, s1.pauses), booting := false);
    LeadsOne(s1, Do(EnterLoop));
    LeadsOn(s, first, s1, [Do(EnterLoop)], t);
    steps := first + [Do(EnterLoop)];
    SoundRun(s, steps);
    LastingRun(s, steps, t);
  }

  /** "The daemon never starts two handlers for the same queue at the same time" fails in
      some run from every initial state that has a queue which is not paused. */
  lemma TwoHandlersAfterRemoval(s: State, q: string) returns (steps: seq<Step>)
    requires Init(s) && q in s.queues && ".all" !in s.pauses && q !in s.pauses
    ensures CanRun(s, steps) && TwoHandlers(Run(s, steps), q)
  {
    var first, s1 := Boot(s, q);
    RunOne(s1, Outside(RemoveQueue(q)));
    var more, t := RemovalBreaks(s1, q);
    RunAppend(s, first, [Outside(RemoveQueue(q))]);
    RunAppend(s, first + [Outside(RemoveQueue(q))], more);
    steps := first + [Outside(RemoveQueue(q))] + more;
  }

  /** A new queue holds an event, and the message about it is the only one. */
  lemma NewQueue(s: State, q: string) returns (steps: seq<Step>, t: State)
    requires Ready(s) && s.inbox == [] && q !in s.queues
    ensures Leads(s, steps, t) && Ready(t) && t.inbox == [Msg(ROOT_WD, Create)] && t.pauses == s.pauses
    ensures Arriving(t, q, t.nextWd) && t.queues[q] !in t.kernel
  {
    var ino := SomeFreshIno(s);
    var s1 := MakeDir(s, q, ino);
    LeadsOne(s, Outside(MakeQueue(q, ino)));
    t := AddFile(s1, q, "e");
    LeadsOne(s1, Outside(Publish(q, "e")));
    LeadsOn(s, [Outside(MakeQueue(q, ino))], s1, [Outside(Publish(q, "e"))], t);
    steps := [Outside(MakeQueue(q, ino))] + [Outside(Publish(q, "e"))];
  }

  lemma NewQueueServed(s: State, q: string) returns (steps: seq<Step>, t: State, pid: nat)
    requires Lasting(s) && Ready(s) && s.inbox == [Msg(ROOT_WD, Create)] && ".all" !in s.pauses
    requires Arriving(s, q, s.nextWd) && s.queues[q] !in s.kernel
    ensures Leads(s, steps, t) && t.inbox == [] && t.pauses == s.pauses && At(t, pid, Handling) && t.workers[pid].queue == q
  {
    var first, s1 := ReadOne(s, q, s.nextWd);
    LastingRun(s, first, s1);
    var i := ArrivedIsEligible(s1, q, s.nextWd);
    var more;
    more, t, pid := ServeWatch(s1, i);
    LeadsOn(s, first, s1, more, t);
    steps := first + more;
  }

  /** That no handler runs for a paused queue fails from every state of a daemon in its main loop
      with no message to read and no ".all": a queue that the pause directory names, and
      that is made now, gets a worker although nothing is pending. */
  lemma PausedQueueServed(s: State, q: string) returns (steps: seq<Step>, t: State, pid: nat)
    requires Lasting(s) && Ready(s) && s.inbox == [] && q !in s.queues && q in s.pauses && ".all" !in s.pauses
    ensures Leads(s, steps, t) && t.inbox == [] && q in t.pauses && At(t, pid, Handling) && t.workers[pid].queue == q
  {
    var first, s1 := NewQueue(s, q);
    LastingRun(s, first, s1);
    var more;
    more, t, pid := NewQueueServed(s1, q);
    LeadsOn(s, first, s1, more, t);
    steps := first + more;
  }

  /** ... in particular when the queue is named before the daemon starts. */
  lemma PausedFromStart(s: State, q: string) returns (steps: seq<Step>, pid: nat)
    requires Init(s) && q !in s.queues && q in s.pauses && ".all" !in s.pauses
    ensures CanRun(s, steps)
    ensures var t := Run(s, steps); t.inbox == [] && q in t.pauses && At(t, pid, Handling) && t.workers[pid].queue == q
  {
    var first, s1 := Boot(s, q);
    var more, t;
    more, t, pid := PausedQueueServed(s1, q);
    LeadsOn(s, first, s1, more, t);
    steps := first + more;
  }
}

/** What the pause directory promises and what the daemon's paused flags deliver, over
    every run: apply_pause runs at start-up and for every message from the pause
    directory, and a queue watched in between gets the pause_all flag only. */
module UeventPause {
  import opened UeventDaemon
  import opened UeventProtocol

  /** The step runs apply_pause. */
  predicate Applies(s: State, step: Step) {
    step == Do(EnterLoop) || (step == Do(ReadInotify) && s.inbox != [] && s.inbox[0].wd == PAUSE_WD)
  }

  /** The daemon has yet to read a message from the pause directory. */
  ghost predicate Pending(inbox: seq<Msg>) {
    exists m :: m in inbox && m.wd == PAUSE_WD
  }

  /** The flags since an apply_pause that saw names: descriptors below limit were in the list then. */
  ghost predicate FlagsAre(ws: seq<Watch>, names: set<string>, limit: nat) {
    forall i | 0 <= i < |ws| && ws[i].kind.QueueDir? ::
      ws[i].paused <==> if ws[i].wd < limit then PauseWanted(names, ws[i].name) else ".all" in names
  }

  /** Each watch with a descriptor below limit is one of the list past. */
  ghost predicate Carried(ws: seq<Watch>, past: seq<Watch>, limit: nat) {
    forall i | 0 <= i < |ws| && ws[i].kind.QueueDir? && ws[i].wd < limit :: Entered(past, ws[i].name, ws[i].wd)
  }

  ghost predicate SinceApply(s: State, names: set<string>, past: seq<Watch>, limit: nat) {
    && !s.booting
    && (Pending(s.inbox) || s.pauses == names)
    && (s.mem.pauseAll <==> ".all" in names)
    && limit <= s.nextWd && (s.task.Watching? ==> s.task.wd >= limit)
    && FlagsAre(s.mem.watches, names, limit) && Carried(s.mem.watches, past, limit)
  }

  lemma PauseWatchLast(ws: seq<Watch>)
    requires Shaped(ws)
    ensures First(ws, IsWd(PAUSE_WD)) == |ws| - 1
  {
    assert IsWd(PAUSE_WD)(ws[|ws| - 1]);
  }

  /** A message from the pause directory makes the daemon read it. */
  lemma PauseMessageApplies(s: State)
    requires Linked(s) && Ready(s) && s.inbox != [] && s.inbox[0].wd == PAUSE_WD
    ensures TakeMessage(s) == s.(mem := ApplyPause(s.mem, s.pauses), inbox := s.inbox[1..])
  {
    assert s.inbox[0] in s.inbox;
    PauseWatchLast(s.mem.watches);
  }

  lemma AppliedFlags(ws: seq<Watch>, names: set<string>, workers: map<nat, Worker>, limit: nat)
    requires Staffed(ws, workers, limit)
    ensures FlagsAre(PausedAll(ws, names), names, limit) && Carried(PausedAll(ws, names), PausedAll(ws, names), limit)
  {
  }

  lemma AppliesStarts(s: State, step: Step)
    requires Linked(s) && Safe(s) && Enabled(s, step) && Applies(s, step)
    ensures var t := Apply(s, step);
            t.pauses == s.pauses && t.mem == ApplyPause(s.mem, s.pauses) && SinceApply(t, t.pauses, t.mem.watches, t.nextWd)
  {
    if step == Do(ReadInotify) {
      PauseMessageApplies(s);
    }
    AppliedFlags(s.mem.watches, s.pauses, s.workers, s.nextWd);
  }

  /** The lists differ in dirty flags and pids only. */
  ghost predicate SameFlags(ws: seq<Watch>, ws': seq<Watch>) {
    && SameList(ws, ws')
    && forall i | 0 <= i < |ws| :: ws'[i].paused == ws[i].paused
  }

  lemma SameFlagsKept(ws: seq<Watch>, ws': seq<Watch>, names: set<string>, past: seq<Watch>, limit: nat)
    requires FlagsAre(ws, names, limit) && Carried(ws, past, limit) && SameFlags(ws, ws')
    ensures FlagsAre(ws', names, limit) && Carried(ws', past, limit)
  {
  }

  lemma DropFlagsKept(ws: seq<Watch>, k: nat, names: set<string>, past: seq<Watch>, limit: nat)
    requires FlagsAre(ws, names, limit) && Carried(ws, past, limit) && k < |ws|
    ensures FlagsAre(ws[..k] + ws[k + 1..], names, limit) && Carried(ws[..k] + ws[k + 1..], past, limit)
  {
    var out := ws[..k] + ws[k + 1..];
    assert forall j | 0 <= j < |out| :: out[j] == ws[if j < k then j else j + 1];
  }

  lemma EnterFlagsKept(ws: seq<Watch>, w: Watch, names: set<string>, past: seq<Watch>, limit: nat)
    requires FlagsAre(ws, names, limit) && Carried(ws, past, limit) && w.wd >= limit && (w.paused <==> ".all" in names)
    ensures FlagsAre([w] + ws, names, limit) && Carried([w] + ws, past, limit)
  {
  }

  lemma PendingKept(inbox: seq<Msg>, more: seq<Msg>)
    requires Pending(inbox)
    ensures Pending(inbox + more)
  {
    var m :| m in inbox && m.wd == PAUSE_WD;
    assert m in inbox + more;
  }

  lemma PendingTail(inbox: seq<Msg>)
    requires Pending(inbox) && inbox[0].wd != PAUSE_WD
    ensures Pending(inbox[1..])
  {
    var m :| m in inbox && m.wd == PAUSE_WD;
    assert m in inbox[1..];
  }

  lemma NotifyKeepsPending(s: State, ino: nat, mask: Mask)
    requires Pending(s.inbox)
    ensures Pending(Notify(s, ino, mask))
  {
    if ino in s.kernel {
      PendingKept(s.inbox, [Msg(s.kernel[ino], mask)]);
    }
  }

  lemma SinceChange(s: State, change: Change, names: set<string>, past: seq<Watch>, limit: nat)
    requires SinceApply(s, names, past, limit) && CanChange(s, change)
    ensures SinceApply(Changed(s, change), names, past, limit)
  {
    match change
    case MakeQueue(q, ino) => SinceMakeDir(s, q, ino, names, past, limit);
    case RemoveQueue(q) => if Pending(s.inbox) { NotifyKeepsPending(s, s.queues[q], DeleteSelf); }
    case Publish(q, e) => if Pending(s.inbox) { NotifyKeepsPending(s, s.queues[q], MovedIn); }
    case SetPause(n) => assert Msg(PAUSE_WD, Create) in s.inbox + [Msg(PAUSE_WD, Create)];
    case ClearPause(n) => assert Msg(PAUSE_WD, Delete) in s.inbox + [Msg(PAUSE_WD, Delete)];
  }

  lemma SinceMakeDir(s: State, q: string, ino: nat, names: set<string>, past: seq<Watch>, limit: nat)
    requires SinceApply(s, names, past, limit)
    ensures SinceApply(MakeDir(s, q, ino), names, past, limit)
  {
    if Pending(s.inbox) {
      PendingKept(s.inbox, [Msg(ROOT_WD, Create)]);
    }
  }

  lemma SinceAct(s: State, pid: nat, act: Act, names: set<string>, past: seq<Watch>, limit: nat)
    requires SinceApply(s, names, past, limit) && CanAct(s, pid, act)
    ensures SinceApply(Acted(s, pid, act), names, past, limit)
  {
  }

  lemma MarkSameFlags(m: Memory, i: nat)
    requires i < |m.watches|
    ensures SameFlags(m.watches, MarkDirty(m, i).watches) && MarkDirty(m, i).pauseAll == m.pauseAll
  {
  }

  lemma MessageSameFlags(m: Memory, wd: nat, mask: Mask, names: set<string>)
    requires Shaped(m.watches) && wd != PAUSE_WD && (mask == DeleteSelf ==> First(m.watches, IsWd(wd)) == |m.watches|)
    ensures SameFlags(m.watches, OnInotify(m, wd, mask, names).watches) && OnInotify(m, wd, mask, names).pauseAll == m.pauseAll
  {
    var i := First(m.watches, IsWd(wd));
    if i < |m.watches| - 2 {
      MarkSameFlags(m, i);
    }
  }

  lemma SinceSameFlags(s: State, t: State, names: set<string>, past: seq<Watch>, limit: nat)
    requires SinceApply(s, names, past, limit) && SameFlags(s.mem.watches, t.mem.watches)
    requires t.booting == s.booting && t.pauses == s.pauses && t.mem.pauseAll == s.mem.pauseAll && t.nextWd == s.nextWd
    requires Pending(s.inbox) ==> Pending(t.inbox)
    requires t.task == s.task || !t.task.Watching?
    ensures SinceApply(t, names, past, limit)
  {
    SameFlagsKept(s.mem.watches, t.mem.watches, names, past, limit);
  }

  lemma SinceGone(s: State, names: set<string>, past: seq<Watch>, limit: nat)
    requires SinceApply(s, names, past, limit) && s.task == Idle && s.inbox != []
    requires s.inbox[0].mask == DeleteSelf && s.inbox[0].wd != PAUSE_WD
    requires First(s.mem.watches, IsWd(s.inbox[0].wd)) < |s.mem.watches|
    ensures SinceApply(TakeMessage(s), names, past, limit)
  {
    GoneDrops(s);
    DropFlagsKept(s.mem.watches, Dropped(s.mem.watches, s.inbox[0].wd), names, past, limit);
    if Pending(s.inbox) {
      PendingTail(s.inbox);
    }
  }

  lemma SinceKept(s: State, m: Memory, task: Task, names: set<string>, past: seq<Watch>, limit: nat)
    requires SinceApply(s, names, past, limit) && s.inbox != [] && s.inbox[0].wd != PAUSE_WD && !task.Watching?
    requires SameFlags(s.mem.watches, m.watches) && m.pauseAll == s.mem.pauseAll
    ensures SinceApply(s.(mem := m, task := task, inbox := s.inbox[1..]), names, past, limit)
  {
    if Pending(s.inbox) {
      PendingTail(s.inbox);
    }
    SinceSameFlags(s, s.(mem := m, task := task, inbox := s.inbox[1..]), names, past, limit);
  }

  lemma SinceRead(s: State, names: set<string>, past: seq<Watch>, limit: nat)
    requires SinceApply(s, names, past, limit) && Linked(s) && Ready(s) && s.inbox != [] && s.inbox[0].wd != PAUSE_WD
    ensures SinceApply(TakeMessage(s), names, past, limit)
  {
    var msg := s.inbox[0];
    if msg.mask == DeleteSelf && First(s.mem.watches, IsWd(msg.wd)) < |s.mem.watches| {
      SinceGone(s, names, past, limit);
    } else {
      MessageSameFlags(s.mem, msg.wd, msg.mask, s.pauses);
      SinceKept(s, TakeMessage(s).mem, TakeMessage(s).task, names, past, limit);
    }
  }

  lemma SinceEnterWatch(s: State, names: set<string>, past: seq<Watch>, limit: nat)
    requires SinceApply(s, names, past, limit) && s.task.Watching? && s.task.queue in s.queues && !s.task.back.Watching?
    ensures SinceApply(EnterWatch(s), names, past, limit)
  {
    var w := EnterWatch(s).mem.watches[0];
    EnterFlagsKept(s.mem.watches, w, names, past, limit);
  }

  lemma PipeSameFlags(m: Memory, wd: nat)
    ensures SameFlags(m.watches, OnPipe(m, wd).watches) && OnPipe(m, wd).pauseAll == m.pauseAll
  {
    var i := First(m.watches, IsQueueWd(wd));
    if i < |m.watches| {
      MarkSameFlags(m, i);
    }
  }

  lemma LoopSameFlags(s: State, call: Call)
    requires CanCall(s, call) && (call.ReadPipe? || call.ReapWorker? || call.SpawnWorker?)
    ensures SameFlags(s.mem.watches, Called(s, call).mem.watches) && Called(s, call).mem.pauseAll == s.mem.pauseAll
  {
    if call.ReadPipe? {
      PipeSameFlags(s.mem, s.pipe[0]);
    }
  }

  lemma SinceFlags(s: State, call: Call, names: set<string>, past: seq<Watch>, limit: nat)
    requires SinceApply(s, names, past, limit) && CanCall(s, call) && (call.ReadPipe? || call.ReapWorker? || call.SpawnWorker?)
    ensures SinceApply(Called(s, call), names, past, limit)
  {
    LoopSameFlags(s, call);
    SinceSameFlags(s, Called(s, call), names, past, limit);
  }

  lemma SinceDeliver(s: State, names: set<string>, past: seq<Watch>, limit: nat)
    requires SinceApply(s, names, past, limit) && CanCall(s, TimerRename)
    ensures SinceApply(Deliver(s), names, past, limit)
  {
    if Pending(s.inbox) {
      NotifyKeepsPending(s, s.queues[s.task.queue], MovedIn);
    }
    var i := First(s.mem.watches, IsQueueNamed(s.task.queue));
    if i < |s.mem.watches| {
      MarkSameFlags(s.mem, i);
    }
    SinceSameFlags(s, Deliver(s), names, past, limit);
  }

  lemma SinceTimer(s: State, call: Call, names: set<string>, past: seq<Watch>, limit: nat)
    requires SinceApply(s, names, past, limit) && CanCall(s, call)
    requires call.ScanOne? || call.ScanEnd? || call.TimerMkdir? || call.TimerWatch? || call.TimerRename? || call.TimerGone?
    ensures SinceApply(Called(s, call), names, past, limit)
  {
    match call
    case TimerMkdir(q, e, ino) => SinceMakeDir(s, q, ino, names, past, limit);
    case TimerRename => SinceDeliver(s, names, past, limit);
    case _ =>
  }

  lemma SinceStep(s: State, step: Step, names: set<string>, past: seq<Watch>, limit: nat)
    requires SinceApply(s, names, past, limit) && Linked(s) && Enabled(s, step) && !Applies(s, step)
    ensures SinceApply(Apply(s, step), names, past, limit)
  {
    match step
    case Outside(change) => SinceChange(s, change, names, past, limit);
    case Work(pid, act) => SinceAct(s, pid, act, names, past, limit);
    case Do(call) =>
      match call
      case ReadInotify => SinceRead(s, names, past, limit);
      case ScanCheck => SinceEnterWatch(s, names, past, limit);
      case ReadPipe => SinceFlags(s, call, names, past, limit);
      case ReapWorker(_) => SinceFlags(s, call, names, past, limit);
      case SpawnWorker(_, _) => SinceFlags(s, call, names, past, limit);
      case _ => SinceTimer(s, call, names, past, limit);
  }

  /** No step of the run is an apply_pause. */
  ghost predicate NoneApplies(s: State, steps: seq<Step>)
    requires CanRun(s, steps)
    decreases |steps|
  {
    steps == [] || (!Applies(s, steps[0]) && NoneApplies(Apply(s, steps[0]), steps[1..]))
  }

  lemma {:induction false} SinceRun(s: State, steps: seq<Step>, names: set<string>, past: seq<Watch>, limit: nat)
    requires SinceApply(s, names, past, limit) && Linked(s) && CanRun(s, steps) && NoneApplies(s, steps)
    ensures SinceApply(Run(s, steps), names, past, limit)
    decreases |steps|
  {
    if steps != [] {
      SinceStep(s, steps[0], names, past, limit);
      LinkedStep(s, steps[0]);
      SinceRun(Apply(s, steps[0]), steps[1..], names, past, limit);
    }
  }

  /** When no message from the pause directory is pending, a queue is flagged exactly
      when the directory asks for it, for the queues that were in the list at the last
      apply_pause; a queue entered later is flagged exactly when ".all" is there.  So
      every flagged queue is wanted, and a wanted one that is not flagged was entered
      after the last apply_pause and is paused by its own name only. */
  lemma PausedAsAsked(s: State, before: seq<Step>, step: Step, after: seq<Step>, i: nat)
    requires Init(s) && CanRun(s, before) && Enabled(Run(s, before), step) && Applies(Run(s, before), step)
    requires CanRun(Apply(Run(s, before), step), after) && NoneApplies(Apply(Run(s, before), step), after)
    requires var t := Run(Apply(Run(s, before), step), after);
             !Pending(t.inbox) && i < |t.mem.watches| && t.mem.watches[i].kind.QueueDir?
    ensures var r := Apply(Run(s, before), step);
            var t := Run(r, after);
            var w := t.mem.watches[i];
            && t.pauses == r.pauses
            && (w.paused <==> if Entered(r.mem.watches, w.name, w.wd) then ".all" in t.pauses || w.name in t.pauses else ".all" in t.pauses)
  {
    InitSafe(s);
    InitLinked(s);
    SafeRun(s, before);
    LinkedRun(s, before);
    var r0 := Run(s, before);
    AppliesStarts(r0, step);
    SafeStep(r0, step);
    LinkedStep(r0, step);
    var r := Apply(r0, step);
    SinceRun(r, after, r.pauses, r.mem.watches, r.nextWd);
    var w := Run(r, after).mem.watches[i];
    if Entered(r.mem.watches, w.name, w.wd) {
      EnteredIsBelow(r.mem.watches, w.name, w.wd, r.workers, r.nextWd);
    }
  }

  /** As long as nothing more comes from the pause directory, a queue that was in the list at the last apply_pause gets
      no worker if the directory asks for its pause, and can get one if it does not and the queue is dirty and has none. */
  lemma ServedUnlessAsked(s: State, before: seq<Step>, step: Step, after: seq<Step>, i: nat, pid: nat)
    requires Init(s) && CanRun(s, before) && Enabled(Run(s, before), step) && Applies(Run(s, before), step)
    requires CanRun(Apply(Run(s, before), step), after) && NoneApplies(Apply(Run(s, before), step), after)
    requires var t := Run(Apply(Run(s, before), step), after);
             !Pending(t.inbox) && i < |t.mem.watches| && t.mem.watches[i].kind.QueueDir?
    requires var w := Run(Apply(Run(s, before), step), after).mem.watches[i];
             Entered(Apply(Run(s, before), step).mem.watches, w.name, w.wd)
    ensures var t := Run(Apply(Run(s, before), step), after);
            var w := t.mem.watches[i];
            Enabled(t, Do(SpawnWorker(i, pid))) <==>
              && ".all" !in t.pauses && w.name !in t.pauses && w.dirty && w.pid == 0
              && t.task == Idle && !t.booting && pid != 0 && pid !in t.workers
  {
    PausedAsAsked(s, before, step, after, i);
  }

  lemma EnteredIsBelow(ws: seq<Watch>, q: string, wd: nat, workers: map<nat, Worker>, limit: nat)
    requires Entered(ws, q, wd) && Staffed(ws, workers, limit)
    ensures wd < limit
  {
  }

  // ----- every reachable state -----

  ghost predicate Held(s: State) {
    s.booting || exists names, past, limit :: SinceApply(s, names, past, limit)
  }

  lemma HeldStep(s: State, step: Step)
    requires Held(s) && Linked(s) && Safe(s) && Enabled(s, step)
    ensures Held(Apply(s, step))
  {
    if Applies(s, step) {
      AppliesStarts(s, step);
    } else if !s.booting {
      var names, past, limit :| SinceApply(s, names, past, limit);
      SinceStep(s, step, names, past, limit);
    } else {
      StillBooting(s, step);
    }
  }

  lemma StillBooting(s: State, step: Step)
    requires s.booting && Enabled(s, step) && step != Do(EnterLoop)
    ensures Apply(s, step).booting
  {
    match step
    case Outside(change) => assert Changed(s, change).booting;
    case Work(pid, act) => assert Acted(s, pid, act).booting;
    case Do(call) => CallBooting(s, call);
  }

  lemma CallBooting(s: State, call: Call)
    requires s.booting && CanCall(s, call) && call != EnterLoop
    ensures Called(s, call).booting
  {
    match call
    case ScanOne(q) => assert AddKernelWatch(s, q, Scanning(s.task.todo - {q})).booting;
    case ScanCheck => assert EnterWatch(s).booting;
    case TimerWatch => assert EnsureQueueWatch(s).booting;
    case TimerRename => assert Deliver(s).booting;
    case _ =>
  }

  lemma {:induction false} HeldRun(s: State, steps: seq<Step>)
    requires Held(s) && Linked(s) && Safe(s) && CanRun(s, steps)
    ensures Held(Run(s, steps))
    decreases |steps|
  {
    if steps != [] {
      HeldStep(s, steps[0]);
      SafeStep(s, steps[0]);
      LinkedStep(s, steps[0]);
      HeldRun(Apply(s, steps[0]), steps[1..]);
    }
  }

  /** Without a pending message pause_all is exact and every flagged queue is wanted. */
  lemma HeldFlags(s: State)
    requires Held(s) && !s.booting && !Pending(s.inbox)
    ensures s.mem.pauseAll <==> ".all" in s.pauses
    ensures forall i | 0 <= i < |s.mem.watches| && s.mem.watches[i].kind.QueueDir? && s.mem.watches[i].paused ::
              ".all" in s.pauses || s.mem.watches[i].name in s.pauses
  {
    var names, past, limit :| SinceApply(s, names, past, limit);
  }
}

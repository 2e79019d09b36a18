/** Nothing makes an event disappear but its own queue: in every run of the ueventd protocol each event file that
    is put into a queue's directory stays there or with the queue's events, under its name, until a handler of
    that queue takes it or the directory is removed with it. */
module UeventConservation {
  import opened UeventProtocol
  import D = UeventDelivery

  /** The events of a queue: in its directory or handed to its worker. */
  ghost function Held(s: State, q: string): set<string> {
    FilesIn(s.files, q) + FilesIn(s.events, q)
  }

  /** Files lie in directories that exist. */
  ghost predicate Placed(s: State) {
    forall q | q !in s.queues :: FilesIn(s.files, q) == {}
  }

  /** What a step puts into the directory of q: a publisher's event, or the timer's. */
  ghost function PutIn(s: State, step: Step, q: string): set<string>
    requires Enabled(s, step)
  {
    match step
    case Outside(Publish(p, e)) => if p == q then {e} else {}
    case Do(TimerRename) => if s.task.queue == q then {s.task.event} else {}
    case _ => {}
  }

  /** A handler of q runs in this step. */
  ghost predicate Handles(s: State, step: Step, q: string)
    requires Enabled(s, step)
  {
    step.Work? && step.act.Handle? && s.workers[step.pid].queue == q
  }

  /** The step takes e away from q: q's directory goes with the file in it, or q's handler leaves it out. */
  ghost predicate Takes(s: State, step: Step, q: string, e: string)
    requires Enabled(s, step)
  {
    || (step == Outside(RemoveQueue(q)) && e in FilesIn(s.files, q))
    || (Handles(s, step, q) && e in FilesIn(s.events, q) && e !in step.act.left)
  }

  // ----- one step -----

  lemma ChangeConserves(s: State, change: Change, q: string)
    requires CanChange(s, change) && Placed(s) && change != RemoveQueue(q)
    ensures Held(Changed(s, change), q) == Held(s, q) + PutIn(s, Outside(change), q)
  {
  }

  lemma ActConserves(s: State, pid: nat, act: Act, q: string)
    requires CanAct(s, pid, act) && !Handles(s, Work(pid, act), q)
    ensures Held(Acted(s, pid, act), q) == Held(s, q)
  {
  }

  ghost predicate SameDirs(s: State, t: State) {
    t.files == s.files && t.events == s.events && t.queues == s.queues
  }

  lemma TakeFrame(s: State)
    requires s.inbox != []
    ensures SameDirs(s, TakeMessage(s))
  {
  }

  lemma KernelFrame(s: State, q: string, back: Task)
    requires q in s.queues
    ensures SameDirs(s, AddKernelWatch(s, q, back))
  {
  }

  lemma EnsureFrame(s: State)
    requires s.task.Ensuring? && (s.task.queue in s.queues || Named(s.mem.watches, s.task.queue))
    ensures SameDirs(s, EnsureQueueWatch(s))
  {
    if !Named(s.mem.watches, s.task.queue) {
      KernelFrame(s, s.task.queue, Delivering(s.task.queue, s.task.event));
    }
  }

  /** All that the daemon does to files is to make a queue's directory and to rename a timer's event into it. */
  lemma CallFrame(s: State, call: Call)
    requires CanCall(s, call) && !call.TimerMkdir? && !call.TimerRename?
    ensures SameDirs(s, Called(s, call))
  {
    match call
    case ReadInotify => TakeFrame(s);
    case ScanOne(q) => KernelFrame(s, q, Scanning(s.task.todo - {q}));
    case TimerWatch => EnsureFrame(s);
    case _ =>
  }

  lemma CallConserves(s: State, call: Call, q: string)
    requires CanCall(s, call) && Placed(s)
    ensures Held(Called(s, call), q) == Held(s, q) + PutIn(s, Do(call), q)
  {
    if !call.TimerMkdir? && !call.TimerRename? {
      CallFrame(s, call);
    }
  }

  /** Every step but a handler of q and the removal of q's directory keeps the events of q and adds exactly what it
      puts into the directory. */
  lemma StepConserves(s: State, step: Step, q: string)
    requires Enabled(s, step) && Placed(s) && !Handles(s, step, q) && step != Outside(RemoveQueue(q))
    ensures Held(Apply(s, step), q) == Held(s, q) + PutIn(s, step, q)
  {
    match step
    case Outside(change) => ChangeConserves(s, change, q);
    case Work(pid, act) => ActConserves(s, pid, act, q);
    case Do(call) => CallConserves(s, call, q);
  }

  /** A file leaves the directory of q only by a worker of q that moves it to q's events, or with the directory, and
      comes there only by being put; an event leaves q's events only by a handler of q. */
  ghost predicate OnlyMoved(s: State, step: Step, t: State, q: string)
    requires Enabled(s, step)
  {
    && (forall e | e in FilesIn(s.files, q) && e !in FilesIn(t.files, q) ::
          || step == Outside(RemoveQueue(q))
          || (step.Work? && step.act == Move(e) && s.workers[step.pid].queue == q && e in FilesIn(t.events, q)))
    && (forall e | e in FilesIn(s.events, q) && e !in FilesIn(t.events, q) :: Handles(s, step, q))
    && (forall e | e in FilesIn(t.files, q) && e !in FilesIn(s.files, q) :: e in PutIn(s, step, q))
  }

  lemma ChangeMoves(s: State, change: Change, q: string)
    requires CanChange(s, change) && Placed(s)
    ensures OnlyMoved(s, Outside(change), Changed(s, change), q)
  {
  }

  lemma ActMoves(s: State, pid: nat, act: Act, q: string)
    requires CanAct(s, pid, act)
    ensures OnlyMoved(s, Work(pid, act), Acted(s, pid, act), q)
  {
  }

  lemma CallMoves(s: State, call: Call, q: string)
    requires CanCall(s, call) && Placed(s)
    ensures OnlyMoved(s, Do(call), Called(s, call), q)
  {
    if !call.TimerMkdir? && !call.TimerRename? {
      CallFrame(s, call);
    }
  }

  lemma StepMoves(s: State, step: Step, q: string)
    requires Enabled(s, step) && Placed(s)
    ensures OnlyMoved(s, step, Apply(s, step), q)
  {
    match step
    case Outside(change) => ChangeMoves(s, change, q);
    case Work(pid, act) => ActMoves(s, pid, act, q);
    case Do(call) => CallMoves(s, call, q);
  }

  lemma PlacedChange(s: State, change: Change)
    requires CanChange(s, change) && Placed(s)
    ensures Placed(Changed(s, change))
  {
  }

  lemma PlacedAct(s: State, pid: nat, act: Act)
    requires CanAct(s, pid, act) && Placed(s)
    ensures Placed(Acted(s, pid, act))
  {
  }

  lemma PlacedCall(s: State, call: Call)
    requires CanCall(s, call) && Placed(s)
    ensures Placed(Called(s, call))
  {
    if !call.TimerMkdir? && !call.TimerRename? {
      CallFrame(s, call);
    }
  }

  lemma PlacedStep(s: State, step: Step)
    requires Enabled(s, step) && Placed(s)
    ensures Placed(Apply(s, step))
  {
    match step
    case Outside(change) => PlacedChange(s, change);
    case Work(pid, act) => PlacedAct(s, pid, act);
    case Do(call) => PlacedCall(s, call);
  }

  lemma StepKeeps(s: State, step: Step, q: string, e: string)
    requires Enabled(s, step) && Placed(s) && e in Held(s, q) && !Takes(s, step, q, e)
    ensures e in Held(Apply(s, step), q)
  {
    if !Handles(s, step, q) && step != Outside(RemoveQueue(q)) {
      StepConserves(s, step, q);
    }
  }

  // ----- whole runs -----

  /** Somewhere in the run e is taken away from q. */
  ghost predicate Taken(s: State, steps: seq<Step>, q: string, e: string)
    requires CanRun(s, steps)
    decreases |steps|
  {
    steps != [] && (Takes(s, steps[0], q, e) || Taken(Apply(s, steps[0]), steps[1..], q, e))
  }

  /** In every run, each event of a queue is still one of its events at the end, or was taken by the queue's own
      handler or with its directory. */
  lemma {:induction false} EventKept(s: State, steps: seq<Step>, q: string, e: string)
    requires Placed(s) && CanRun(s, steps) && e in Held(s, q)
    ensures e in Held(Run(s, steps), q) || Taken(s, steps, q, e)
    decreases |steps|
  {
    if steps != [] && !Takes(s, steps[0], q, e) {
      StepKeeps(s, steps[0], q, e);
      PlacedStep(s, steps[0]);
      EventKept(Apply(s, steps[0]), steps[1..], q, e);
    }
  }

  lemma {:induction false} PlacedRun(s: State, steps: seq<Step>)
    requires Placed(s) && CanRun(s, steps)
    ensures Placed(Run(s, steps))
    decreases |steps|
  {
    if steps != [] {
      PlacedStep(s, steps[0]);
      PlacedRun(Apply(s, steps[0]), steps[1..]);
    }
  }

  lemma PutInHeld(s: State, step: Step, q: string)
    requires Enabled(s, step) && Placed(s)
    ensures PutIn(s, step, q) <= Held(Apply(s, step), q)
  {
    if PutIn(s, step, q) != {} {
      StepConserves(s, step, q);
    }
  }

  /** Wherever in a run an event is published or delivered by the timer, it is an event of its queue at the end of
      the run, or was taken since by the queue's own handler or with its directory. */
  lemma PublishedKept(s: State, before: seq<Step>, step: Step, after: seq<Step>, q: string, e: string)
    requires Placed(s) && CanRun(s, before) && Enabled(Run(s, before), step) && CanRun(Apply(Run(s, before), step), after)
    requires e in PutIn(Run(s, before), step, q)
    ensures CanRun(s, before + ([step] + after))
    ensures e in Held(Run(s, before + ([step] + after)), q) || Taken(Apply(Run(s, before), step), after, q, e)
  {
    var t := Run(s, before);
    PlacedRun(s, before);
    PutInHeld(t, step, q);
    PlacedStep(t, step);
    EventKept(Apply(t, step), after, q, e);
    assert ([step] + after)[1..] == after;
    RunAppend(s, before, [step] + after);
  }

  /** Such an event that was not taken is one that the daemon or the queue's worker will come back to. */
  lemma PublishedAccounted(s: State, before: seq<Step>, step: Step, after: seq<Step>, q: string, e: string)
    requires Init(s) && Placed(s) && CanRun(s, before) && Enabled(Run(s, before), step) && CanRun(Apply(Run(s, before), step), after)
    requires e in PutIn(Run(s, before), step, q)
    requires CanRun(s, before + ([step] + after)) && D.KeepsWatched(s, before + ([step] + after))
    ensures var t := Run(s, before + ([step] + after));
            || (e in FilesIn(t.files, q) && D.Accounted(t, q, e))
            || (e in FilesIn(t.events, q) && D.Revisited(t, q))
            || Taken(Apply(Run(s, before), step), after, q, e)
  {
    var steps := before + ([step] + after);
    PublishedKept(s, before, step, after, q, e);
    PlacedRun(s, steps);
    D.NoLostEvent(s, steps);
    assert e in FilesIn(Run(s, steps).files, q) ==> q in Run(s, steps).queues;
  }

  /** Once the run has gone quiet, every event published in it was taken: by a handler of its own queue, or with
      the queue's directory while that was not watched. */
  lemma PublishedTaken(s: State, before: seq<Step>, step: Step, after: seq<Step>, q: string, e: string)
    requires Init(s) && Placed(s) && CanRun(s, before) && Enabled(Run(s, before), step) && CanRun(Apply(Run(s, before), step), after)
    requires e in PutIn(Run(s, before), step, q)
    requires CanRun(s, before + ([step] + after)) && D.KeepsWatched(s, before + ([step] + after))
    requires D.Quiet(Run(s, before + ([step] + after)))
    ensures Taken(Apply(Run(s, before), step), after, q, e)
  {
    var steps := before + ([step] + after);
    PublishedKept(s, before, step, after, q, e);
    PlacedRun(s, steps);
    D.QuietMeansDone(s, steps, q);
  }
}

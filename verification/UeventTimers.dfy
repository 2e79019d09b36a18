/** The timer half of ueventd: delayed events in timers/<queue>/<due>.<event>, the
    timerfd, and the timer_changed flag (ueventd.c:245-260, 282-384, 482-501, 558-572, 720-721). */
module UeventTimers {
  import opened Basics
  import D = UeventDaemon

  // ----- file names -----

  predicate IsDigit(c: char) {
    '0' <= c <= '9'
  }

  /** How many digits name starts with. */
  function Digits(name: string): (n: nat)
    ensures n <= |name| && (forall i | 0 <= i < n :: IsDigit(name[i])) && (n < |name| ==> !IsDigit(name[n]))
  {
    if name == [] || !IsDigit(name[0]) then 0 else 1 + Digits(name[1..])
  }

  function DigitValue(c: char): nat
    requires IsDigit(c)
  {
    c as int - '0' as int
  }

  function Decimal(digits: string): nat
    requires forall i | 0 <= i < |digits| :: IsDigit(digits[i])
  {
    if digits == [] then 0 else 10 * Decimal(digits[..|digits| - 1]) + DigitValue(digits[|digits| - 1])
  }

  const ULLONG_MAX: nat := 0xFFFF_FFFF_FFFF_FFFF

  /** parse_timer_due (lines 282-293): 0 unless the name is a number, in range, followed by a dot. */
  function ParseDue(name: string): (due: nat)
    ensures due <= ULLONG_MAX
  {
    var n := Digits(name);
    if n == 0 || n == |name| || name[n] != '.' || Decimal(name[..n]) > ULLONG_MAX then 0 else Decimal(name[..n])
  }

  /** A delayed event: its queue and its file name. */
  datatype Timer = Timer(queue: string, name: string)

  function Due(t: Timer): nat {
    ParseDue(t.name)
  }

  /** move_timer_event needs an event name after the dot (lines 312-317). */
  predicate HasEvent(t: Timer) {
    Digits(t.name) + 1 < |t.name|
  }

  /** A number in decimal, as a delayed event's name has it. */
  function Printed(n: nat): (s: string)
    ensures s != ""
  {
    if n < 10 then ["0123456789"[n]] else Printed(n / 10) + ["0123456789"[n % 10]]
  }

  lemma OneDigit(d: nat)
    requires d < 10
    ensures IsDigit("0123456789"[d]) && DigitValue("0123456789"[d]) == d
  {
  }

  lemma {:induction false} PrintedValue(n: nat)
    ensures forall i | 0 <= i < |Printed(n)| :: IsDigit(Printed(n)[i])
    ensures Decimal(Printed(n)) == n
    decreases n
  {
    OneDigit(n % 10);
    if n >= 10 {
      PrintedValue(n / 10);
      var s := Printed(n);
      assert s[..|s| - 1] == Printed(n / 10);
    }
  }

  lemma {:induction false} DigitsBefore(a: string, b: string)
    requires (forall i | 0 <= i < |a| :: IsDigit(a[i])) && b != "" && !IsDigit(b[0])
    ensures Digits(a + b) == |a|
    decreases |a|
  {
    if a == "" {
      assert a + b == b;
    } else {
      assert (a + b)[1..] == a[1..] + b;
      DigitsBefore(a[1..], b);
    }
  }

  /** The name printed from a time and an event is due at that time, when it fits 64 bits. */
  lemma PrintedDue(queue: string, n: nat, event: string)
    ensures var t := Timer(queue, Printed(n) + "." + event);
            Due(t) == (if n <= 0xFFFF_FFFF_FFFF_FFFF then n else 0) && (HasEvent(t) <==> event != "")
  {
    var name := Printed(n) + ("." + event);
    assert Printed(n) + "." + event == name;
    PrintedValue(n);
    DigitsBefore(Printed(n), "." + event);
    assert name[..|Printed(n)|] == Printed(n);
  }

  /** A timer that the daemon will act on some day. */
  predicate WellFormed(t: Timer) {
    0 < Due(t) < ULLONG_MAX && HasEvent(t)
  }

  /** update_timerfd moves t when it runs at time now. */
  predicate Ripe(t: Timer, now: nat) {
    0 < Due(t) <= now && HasEvent(t)
  }

  /** t keeps the timer armed when update_timerfd runs at time now. */
  predicate Waiting(t: Timer, now: nat) {
    Due(t) > now
  }

  function Earlier(next: nat, t: Timer, now: nat): nat {
    if Waiting(t, now) && Due(t) < next then Due(t) else next
  }

  // ----- update_timerfd -----

  /** The entries that are moved, in order. */
  function Ripened(ts: seq<Timer>, now: nat): seq<Timer> {
    if ts == [] then []
    else if Ripe(ts[|ts| - 1], now) then Ripened(ts[..|ts| - 1], now) + [ts[|ts| - 1]]
    else Ripened(ts[..|ts| - 1], now)
  }

  /** Exactly the timers that are due and name an event are moved. */
  lemma {:induction false} RipenedAre(ts: seq<Timer>, now: nat)
    ensures forall t :: t in Ripened(ts, now) <==> t in ts && 0 < Due(t) <= now && HasEvent(t)
    decreases |ts|
  {
    if ts != [] {
      var n := |ts| - 1;
      RipenedAre(ts[..n], now);
      assert ts == ts[..n] + [ts[n]];
    }
  }

  /** The earliest time after now that a timer is due, or ULLONG_MAX. */
  function NextDue(ts: seq<Timer>, now: nat): nat {
    if ts == [] then ULLONG_MAX else Earlier(NextDue(ts[..|ts| - 1], now), ts[|ts| - 1], now)
  }

  lemma {:induction false} NextDueIsEarliest(ts: seq<Timer>, now: nat)
    requires now < ULLONG_MAX
    ensures now < NextDue(ts, now) <= ULLONG_MAX
    ensures forall i | 0 <= i < |ts| && Waiting(ts[i], now) :: NextDue(ts, now) <= Due(ts[i])
    ensures NextDue(ts, now) < ULLONG_MAX ==> exists i :: 0 <= i < |ts| && Due(ts[i]) == NextDue(ts, now)
    decreases |ts|
  {
    if ts != [] {
      var n := |ts| - 1;
      NextDueIsEarliest(ts[..n], now);
      if NextDue(ts, now) == Due(ts[n]) {
      } else if NextDue(ts, now) < ULLONG_MAX {
        var i :| 0 <= i < n && Due(ts[..n][i]) == NextDue(ts[..n], now);
        assert Due(ts[i]) == NextDue(ts, now);
      }
    }
  }

  lemma RipenedNext(ts: seq<Timer>, i: nat, now: nat)
    requires i < |ts|
    ensures NextDue(ts[..i + 1], now) == Earlier(NextDue(ts[..i], now), ts[i], now)
    ensures Ripened(ts[..i + 1], now) == if Ripe(ts[i], now) then Ripened(ts[..i], now) + [ts[i]] else Ripened(ts[..i], now)
  {
    var s := ts[..i + 1];
    assert s[..|s| - 1] == ts[..i] && s[|s| - 1] == ts[i];
  }

  /** The daemon's memory after update_timerfd has gone through ts: for entry i the kernel gives
      answers(i) to ensure_queue_dir, and renamed(i) says whether its rename succeeds. */
  function Swept(m: D.Memory, ts: seq<Timer>, now: nat, answers: nat -> D.Answer, renamed: nat -> bool): D.Memory
    decreases |ts|
  {
    if ts == [] then m
    else
      var n := |ts| - 1;
      var m' := Swept(m, ts[..n], now, answers, renamed);
      if Ripe(ts[n], now) then D.MoveTimer(m', ts[n].queue, answers(n), renamed(n)) else m'
  }

  /** inotify calls a queue "watched already" only when the queue is in the list by then. */
  ghost predicate AllHonest(m: D.Memory, ts: seq<Timer>, now: nat, answers: nat -> D.Answer, renamed: nat -> bool)
    decreases |ts|
  {
    ts == [] ||
    (var n := |ts| - 1;
     && AllHonest(m, ts[..n], now, answers, renamed)
     && (Ripe(ts[n], now) ==> D.Honest(Swept(m, ts[..n], now, answers, renamed), ts[n].queue, answers(n))))
  }

  /** After the sweep every queue that got an event is watched and dirty, whatever else
      happened, and the counter is as exact as before. */
  lemma {:induction false} SweptServes(m: D.Memory, ts: seq<Timer>, now: nat, answers: nat -> D.Answer,
                                       renamed: nat -> bool)
    ensures D.Surplus(Swept(m, ts, now, answers, renamed)) == D.Surplus(m)
    ensures AllHonest(m, ts, now, answers, renamed) ==>
              forall i | 0 <= i < |ts| && Ripe(ts[i], now) && renamed(i) :: D.Waits(Swept(m, ts, now, answers, renamed), ts[i].queue)
    decreases |ts|
  {
    if ts != [] {
      var n := |ts| - 1;
      SweptServes(m, ts[..n], now, answers, renamed);
      if Ripe(ts[n], now) {
        ServesOne(Swept(m, ts[..n], now, answers, renamed), ts, n, now, answers(n), renamed);
      }
    }
  }

  lemma ServesOne(m: D.Memory, ts: seq<Timer>, n: nat, now: nat, answer: D.Answer, renamed: nat -> bool)
    requires n < |ts|
    ensures var m' := D.MoveTimer(m, ts[n].queue, answer, renamed(n));
            && D.Surplus(m') == D.Surplus(m)
            && (D.Honest(m, ts[n].queue, answer) && renamed(n) ==> D.Waits(m', ts[n].queue))
            && forall i | 0 <= i < n && D.Waits(m, ts[i].queue) :: D.Waits(m', ts[i].queue)
  {
    D.MoveTimerSurplus(m, ts[n].queue, answer, renamed(n));
    D.MoveTimerServes(m, ts[n].queue, answer, renamed(n), ts[n].queue);
    forall i | 0 <= i < n && D.Waits(m, ts[i].queue)
      ensures D.Waits(D.MoveTimer(m, ts[n].queue, answer, renamed(n)), ts[i].queue)
    {
      D.MoveTimerServes(m, ts[n].queue, answer, renamed(n), ts[i].queue);
    }
  }

  lemma SweptNext(m: D.Memory, ts: seq<Timer>, i: nat, now: nat, answers: nat -> D.Answer, renamed: nat -> bool)
    requires i < |ts|
    ensures Swept(m, ts[..i + 1], now, answers, renamed) ==
            var m' := Swept(m, ts[..i], now, answers, renamed);
            if Ripe(ts[i], now) then D.MoveTimer(m', ts[i].queue, answers(i), renamed(i)) else m'
  {
    var s := ts[..i + 1];
    assert s[..|s| - 1] == ts[..i] && s[|s| - 1] == ts[i];
  }

  /** update_timerfd over the timer files in readdir order (lines 348-383): what is handed to
      move_timer_event, and the time to arm the timer for (ULLONG_MAX: not at all). */
  method Sweep(d: D.Daemon, entries: seq<Timer>, now: nat, answers: nat -> D.Answer, renamed: nat -> bool)
    returns (moved: seq<Timer>, next: nat)
    modifies d
    ensures moved == Ripened(entries, now) && next == NextDue(entries, now)
    ensures d.Value() == Swept(old(d.Value()), entries, now, answers, renamed).(timerChanged := false)
  {
    moved, next := [], ULLONG_MAX;
    var i := 0;
    while i < |entries|
      invariant i <= |entries|
      invariant moved == Ripened(entries[..i], now) && next == NextDue(entries[..i], now)
      invariant d.Value() == Swept(old(d.Value()), entries[..i], now, answers, renamed)
    {
      RipenedNext(entries, i, now);
      SweptNext(old(d.Value()), entries, i, now, answers, renamed);
      var move, due := LookAtName(entries[i], now);
      if now < due < next {
        next := due;
      }
      if move {
        d.MoveTimerEvent(entries[i].queue, answers(i), renamed(i));
        moved := moved + [entries[i]];
      }
      i := i + 1;
    }
    assert entries[..i] == entries;
    d.timerChanged := false;
  }

  /** What one directory entry means (lines 360-374). */
  method LookAtName(t: Timer, now: nat) returns (move: bool, due: nat)
    ensures due == Due(t) && move == Ripe(t, now)
  {
    due := ParseDue(t.name);
    move := due != 0 && due <= now && HasEvent(t);
  }

  // ----- the protocol -----

  /** Inotify messages: from the timer root directory, or from the directory of a queue. */
  datatype Msg = Root | InDir(queue: string)

  /** watch_timer_queues in progress, or update_timerfd in progress: the time it read, the
      files its readdir is still bound to return, and the earliest time seen so far. */
  datatype Task = Idle | Scanning(todo: set<string>) | Updating(start: nat, unseen: set<Timer>, next: nat)

  datatype State = State(
    now: nat,
    timers: set<Timer>,
    dirs: set<string>,
    watched: set<string>,
    inbox: seq<Msg>,
    changed: bool,
    armed: nat,
    expired: bool,
    moved: set<Timer>,
    task: Task)

  datatype Step =
    | MakeDir(queue: string)
    | Put(timer: Timer)
    | Cancel(timer: Timer)
    | Tick
    | Fire
    | ReadInotify
    | Watch(queue: string)
    | EndScan
    | ReadTimer
    | BeginUpdate
    | Look(timer: Timer)
    | EndUpdate

  predicate Enabled(s: State, step: Step) {
    match step
    case MakeDir(q) => q !in s.dirs
    case Put(t) => t.queue in s.dirs
    case Cancel(t) => t in s.timers
    case Tick => s.now + 1 < ULLONG_MAX
    case Fire => s.armed <= s.now
    case ReadInotify => s.task == Idle && s.inbox != []
    case Watch(q) => s.task.Scanning? && q in s.dirs
    case EndScan => s.task == Scanning({})
    case ReadTimer => s.task == Idle && s.expired
    case BeginUpdate => s.task == Idle && s.changed
    case Look(t) => s.task.Updating?
    case EndUpdate => s.task.Updating? && s.task.unseen == {}
  }

  /** One file during update_timerfd; t may have been cancelled since the directory was opened. */
  function LookAt(s: State, t: Timer): State
    requires s.task.Updating?
  {
    var unseen := s.task.unseen - {t};
    if t !in s.timers then s.(task := s.task.(unseen := unseen))
    else if Ripe(t, s.task.start) then
      s.(timers := s.timers - {t}, moved := s.moved + {t}, task := s.task.(unseen := unseen))
    else s.(task := s.task.(unseen := unseen, next := Earlier(s.task.next, t, s.task.start)))
  }

  function Apply(s: State, step: Step): State
    requires Enabled(s, step)
  {
    match step
    case MakeDir(q) => s.(dirs := s.dirs + {q}, inbox := s.inbox + [Root])
    case Put(t) => s.(timers := s.timers + {t}, inbox := if t.queue in s.watched then s.inbox + [InDir(t.queue)] else s.inbox)
    case Cancel(t) => s.(timers := s.timers - {t})
    case Tick => s.(now := s.now + 1)
    case Fire => s.(armed := ULLONG_MAX, expired := true)
    case ReadInotify =>
      s.(inbox := s.inbox[1..], changed := true, task := if s.inbox[0].Root? then Scanning(s.dirs) else Idle)
    case Watch(q) => s.(watched := s.watched + {q}, task := Scanning(s.task.todo - {q}))
    case EndScan => s.(task := Idle)
    case ReadTimer => s.(expired := false, changed := true)
    case BeginUpdate => s.(task := Updating(s.now, s.timers, ULLONG_MAX))
    case Look(t) => LookAt(s, t)
    case EndUpdate => s.(task := Idle, armed := s.task.next, expired := false, changed := false)
  }

  /** The daemon is about to watch the timer directories; main then calls update_timerfd unconditionally. */
  ghost predicate Init(s: State) {
    && s.now < ULLONG_MAX && (forall t | t in s.timers :: t.queue in s.dirs)
    && s.watched == {} && s.inbox == [] && s.changed && s.armed == ULLONG_MAX && !s.expired && s.moved == {}
    && s.task == Scanning(s.dirs)
  }

  ghost predicate CanRun(s: State, steps: seq<Step>)
    decreases |steps|
  {
    steps == [] || (Enabled(s, steps[0]) && CanRun(Apply(s, steps[0]), steps[1..]))
  }

  ghost function Run(s: State, steps: seq<Step>): State
    requires CanRun(s, steps)
    decreases |steps|
  {
    if steps == [] then s else Run(Apply(s, steps[0]), steps[1..])
  }

  /** Why the daemon will look at t in time. */
  ghost predicate Covered(s: State, t: Timer) {
    || s.changed || s.expired
    || s.armed <= Due(t)
    || Root in s.inbox || InDir(t.queue) in s.inbox
  }

  /** ... while update_timerfd runs: it has yet to see t, or t's time is noted, or a message came later. */
  ghost predicate CoveredInUpdate(s: State, t: Timer)
    requires s.task.Updating?
  {
    || t in s.task.unseen
    || s.task.next <= Due(t)
    || Root in s.inbox || InDir(t.queue) in s.inbox
  }

  ghost predicate Inv(s: State) {
    && s.now < ULLONG_MAX
    && (forall t | t in s.moved :: Ripe(t, s.now))
    && (forall t | t in s.timers :: t.queue in s.dirs)
    && (forall q | q in s.dirs && q !in s.watched :: Root in s.inbox || (s.task.Scanning? && q in s.task.todo))
    && (s.task.Scanning? ==> s.changed && s.task.todo <= s.dirs)
    && (s.task.Updating? ==> s.task.start <= s.now && forall t | t in s.timers && WellFormed(t) :: CoveredInUpdate(s, t))
    && (!s.task.Updating? ==> forall t | t in s.timers && WellFormed(t) :: Covered(s, t))
  }

  lemma InvReadInotify(s: State)
    requires Inv(s) && Enabled(s, ReadInotify)
    ensures Inv(Apply(s, ReadInotify))
  {
    forall q | q in s.dirs && q !in s.watched && !s.inbox[0].Root? ensures Root in s.inbox[1..] {
      InTail(Root, s.inbox);
    }
  }

  lemma InvLook(s: State, t: Timer)
    requires Inv(s) && s.task.Updating?
    ensures Inv(LookAt(s, t))
  {
  }

  lemma InvEndUpdate(s: State)
    requires Inv(s) && Enabled(s, EndUpdate)
    ensures Inv(Apply(s, EndUpdate))
  {
  }

  lemma InvPut(s: State, t: Timer)
    requires Inv(s) && Enabled(s, Put(t))
    ensures Inv(Apply(s, Put(t)))
  {
  }

  lemma InvStep(s: State, step: Step)
    requires Inv(s) && Enabled(s, step)
    ensures Inv(Apply(s, step))
  {
    match step
    case ReadInotify => InvReadInotify(s);
    case Look(t) => InvLook(s, t);
    case EndUpdate => InvEndUpdate(s);
    case Put(t) => InvPut(s, t);
    case _ =>
  }

  lemma {:induction false} InvRun(s: State, steps: seq<Step>)
    requires Inv(s) && CanRun(s, steps)
    ensures Inv(Run(s, steps))
    decreases |steps|
  {
    if steps != [] {
      InvStep(s, steps[0]);
      InvRun(Apply(s, steps[0]), steps[1..]);
    }
  }

  /** In every run each pending timer is covered by the armed time, the changed flag or an
      unread message, and nothing was moved before its time. */
  lemma EveryTimerCovered(s: State, steps: seq<Step>)
    requires Init(s) && CanRun(s, steps)
    ensures var r := Run(s, steps);
            && (forall t | t in r.timers && WellFormed(t) :: if r.task.Updating? then CoveredInUpdate(r, t) else Covered(r, t))
            && (forall t | t in r.moved :: 0 < Due(t) <= r.now)
  {
    InvRun(s, steps);
  }

  /** The daemon waits in epoll_wait with nothing to read. */
  ghost predicate Blocked(s: State) {
    s.task == Idle && !s.changed && !s.expired && s.inbox == [] && s.armed > s.now
  }

  /** When the daemon blocks in epoll_wait with nothing to read, no timer is due. */
  lemma NothingDueWhenBlocked(s: State, steps: seq<Step>, t: Timer)
    requires Init(s) && CanRun(s, steps)
    requires Blocked(Run(s, steps)) && t in Run(s, steps).timers && WellFormed(t)
    ensures Due(t) > Run(s, steps).now
  {
    InvRun(s, steps);
  }

  // ----- no timer vanishes -----

  /** A step keeps every timer pending or moved but the one it cancels, and only what is put is added. */
  lemma StepKeepsTimers(s: State, step: Step)
    requires Enabled(s, step)
    ensures var t := Apply(s, step);
            && t.timers + t.moved == (s.timers - (if step.Cancel? then {step.timer} else {})) + s.moved + (if step.Put? then {step.timer} else {})
            && s.moved <= t.moved
  {
  }

  /** In every run a timer that was pending is pending or moved at the end unless it was cancelled. */
  lemma {:induction false} TimerKept(s: State, steps: seq<Step>, t: Timer)
    requires CanRun(s, steps) && t in s.timers + s.moved && Cancel(t) !in steps
    ensures t in Run(s, steps).timers + Run(s, steps).moved
    decreases |steps|
  {
    if steps != [] {
      StepKeepsTimers(s, steps[0]);
      assert steps[0] in steps;
      TimerKept(Apply(s, steps[0]), steps[1..], t);
    }
  }

  /** A timer that was put in the middle of a run and not cancelled since was moved, and not before its time, or is
      pending; when the daemon then blocks with nothing to read, it is not due yet. */
  lemma PutIsServed(s: State, before: seq<Step>, t: Timer, after: seq<Step>)
    requires Init(s) && CanRun(s, before) && Enabled(Run(s, before), Put(t)) && CanRun(Apply(Run(s, before), Put(t)), after)
    requires Cancel(t) !in after
    ensures CanRun(s, before + ([Put(t)] + after))
    ensures var r := Run(s, before + ([Put(t)] + after));
            && (t in r.moved ==> 0 < Due(t) <= r.now) && (t !in r.moved ==> t in r.timers)
            && (Blocked(r) && 0 < Due(t) <= r.now && HasEvent(t) ==> t in r.moved)
  {
    var put := Apply(Run(s, before), Put(t));
    TimerKept(put, after, t);
    assert ([Put(t)] + after)[1..] == after;
    RunAppend(s, before, [Put(t)] + after);
    InvRun(s, before + ([Put(t)] + after));
  }

  lemma {:induction false} RunAppend(s: State, steps: seq<Step>, more: seq<Step>)
    requires CanRun(s, steps) && CanRun(Run(s, steps), more)
    ensures CanRun(s, steps + more) && Run(s, steps + more) == Run(Run(s, steps), more)
    decreases |steps|
  {
    if steps == [] {
      assert steps + more == more;
    } else {
      assert (steps + more)[1..] == steps[1..] + more;
      RunAppend(Apply(s, steps[0]), steps[1..], more);
    }
  }

  // ----- the flag in the daemon's memory -----

  /** The watch that a message of the protocol comes from. */
  ghost predicate ComesFrom(msg: Msg, w: D.Watch) {
    match msg
    case Root => w.kind == D.TimerRoot
    case InDir(q) => w.kind == D.TimerDir && w.name == q
  }

  /** Reading a message from a timer directory sets timer_changed in the daemon's memory as the protocol says and
      changes nothing else there. */
  lemma FlagAfterMessage(s: State, m: D.Memory, wd: nat, mask: D.Mask, names: set<string>)
    requires Enabled(s, ReadInotify) && mask != D.DeleteSelf
    requires var i := D.First(m.watches, D.IsWd(wd)); i < |m.watches| && ComesFrom(s.inbox[0], m.watches[i])
    ensures var m' := D.OnInotify(m, wd, mask, names);
            m'.timerChanged == Apply(s, ReadInotify).changed && m' == m.(timerChanged := true)
  {
  }

  /** No other message touches the flag. */
  lemma FlagKept(m: D.Memory, wd: nat, mask: D.Mask, names: set<string>)
    requires var i := D.First(m.watches, D.IsWd(wd));
             i == |m.watches| || mask == D.DeleteSelf || m.watches[i].kind in {D.RootDir, D.PauseDir, D.QueueDir}
    ensures D.OnInotify(m, wd, mask, names).timerChanged == m.timerChanged
  {
  }

  /** Watching a timer directory while the scan is under way agrees with the protocol; a directory that holds
      files sets the flag whenever it is watched, and nothing that is watched clears it. */
  lemma FlagAfterWatch(s: State, m: D.Memory, q: string, kind: D.Kind, wd: nat, ino: nat, nonEmpty: bool)
    requires Inv(s) && Enabled(s, Watch(q)) && m.timerChanged == s.changed
    ensures D.AddWatch(m, q, D.TimerDir, wd, ino, nonEmpty).timerChanged == Apply(s, Watch(q)).changed
    ensures D.AddWatch(m.(timerChanged := false), q, kind, wd, ino, nonEmpty).timerChanged <==> kind == D.TimerDir && nonEmpty
    ensures D.AddWatch(m.(timerChanged := true), q, kind, wd, ino, nonEmpty).timerChanged
  {
  }
}

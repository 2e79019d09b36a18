/** The concurrent protocol around ueventd: publishers that move event files into
    queue directories, the daemon, its forked workers (queue-processor.c), inotify and
    the retry pipe.  Every system call that another process can observe is a step of
    its own; a run is any interleaving of enabled steps.

    Forks and pipe writes succeed and the inotify queue does not overflow. */
module UeventProtocol {
  import opened UeventDaemon

  /** Descriptors and inodes of the pause and root directories, which are watched before any queue. */
  const PAUSE_WD: nat := 1
  const ROOT_WD: nat := 2
  const FIRST_QUEUE_WD: nat := 4

  const PAUSE_INO: nat := 1
  const ROOT_INO: nat := 2
  const FIRST_QUEUE_INO: nat := 3

  /** Where a worker is in process_events; while it moves files: the directory it has
      opened and the files its readdir is bound to return. */
  datatype Pc = Starting | Moving(ino: nat, must: set<string>) | Moved | Handling | Handled | Signalling | Exited

  datatype Worker = Worker(wd: nat, queue: string, pc: Pc)

  datatype Msg = Msg(wd: nat, mask: Mask)

  /** What the daemon is in the middle of: scanning for queues to watch; about to watch a
      timer event's queue, or to rename the event into it; or entering a watch that
      inotify has just added into the list, to go back to one of these. */
  datatype Task =
    | Idle
    | Scanning(todo: set<string>)
    | Ensuring(queue: string, event: string)
    | Delivering(queue: string, event: string)
    | Watching(queue: string, wd: nat, back: Task)

  /** booting: main has not called apply_pause yet (line 694).  Then the queue directories
      by inode, the event files in them, the events handed to workers, the pause
      directory, pending inotify and pipe messages, the unreaped workers, and the
      inotify watches by inode. */
  datatype State = State(
    mem: Memory,
    task: Task,
    booting: bool,
    queues: map<string, nat>,
    files: map<string, set<string>>,
    events: map<string, set<string>>,
    pauses: set<string>,
    inbox: seq<Msg>,
    pipe: seq<nat>,
    workers: map<nat, Worker>,
    kernel: map<nat, nat>,
    nextWd: nat)

  /** What publishers, administrators and scripts do to the directories. */
  datatype Change =
    | MakeQueue(queue: string, ino: nat)
    | RemoveQueue(queue: string)
    | Publish(queue: string, event: string)
    | SetPause(name: string)
    | ClearPause(name: string)

  /** What a worker does. */
  datatype Act =
    | Open
    | Move(event: string)
    | EndMove
    | GiveUp
    | Check
    | Handle(left: set<string>)
    | HandlerDone
    | Recheck
    | Signal

  /** What the daemon does. */
  datatype Call =
    | ReadInotify
    | ScanOne(queue: string)
    | ScanCheck
    | ScanEnd
    | EnterLoop
    | ReadPipe
    | ReapWorker(pid: nat)
    | SpawnWorker(i: nat, pid: nat)
    | TimerMkdir(queue: string, event: string, ino: nat)
    | TimerWatch
    | TimerRename
    | TimerGone

  datatype Step = Outside(change: Change) | Work(pid: nat, act: Act) | Do(call: Call)

  function FilesIn(dirs: map<string, set<string>>, q: string): set<string> {
    if q in dirs then dirs[q] else {}
  }

  /** The queues that the scan under way has yet to look at. */
  function Todo(task: Task): set<string> {
    match task
    case Scanning(todo) => todo
    case Watching(_, _, Scanning(todo)) => todo
    case _ => {}
  }

  predicate At(s: State, pid: nat, pc: Pc) {
    pid in s.workers && s.workers[pid].pc == pc
  }

  predicate AtMoving(s: State, pid: nat) {
    pid in s.workers && s.workers[pid].pc.Moving?
  }

  /** The directory that a worker has opened is still the one of its queue. */
  predicate DirThere(s: State, pid: nat)
    requires AtMoving(s, pid)
  {
    s.workers[pid].queue in s.queues && s.queues[s.workers[pid].queue] == s.workers[pid].pc.ino
  }

  /** No directory has this inode, no watch is on it and no worker holds it open. */
  predicate FreshIno(s: State, ino: nat) {
    && ino >= FIRST_QUEUE_INO && ino !in s.kernel
    && (forall p | p in s.queues :: s.queues[p] != ino)
    && (forall pid | pid in s.workers && s.workers[pid].pc.Moving? :: s.workers[pid].pc.ino != ino)
  }

  /** The daemon is in its main loop, between two handlers. */
  predicate Ready(s: State) {
    s.task == Idle && !s.booting
  }

  predicate Named(ws: seq<Watch>, q: string) {
    First(ws, IsQueueNamed(q)) < |ws|
  }

  predicate CanChange(s: State, change: Change) {
    match change
    case MakeQueue(q, ino) => q !in s.queues && FreshIno(s, ino)
    case RemoveQueue(q) => q in s.queues
    case Publish(q, e) => q in s.queues
    case SetPause(n) => n !in s.pauses
    case ClearPause(n) => n in s.pauses
  }

  predicate CanAct(s: State, pid: nat, act: Act) {
    match act
    case Open => At(s, pid, Starting) && s.workers[pid].queue in s.queues
    case Move(e) => AtMoving(s, pid) && DirThere(s, pid) && e in FilesIn(s.files, s.workers[pid].queue)
    case EndMove => AtMoving(s, pid) && (DirThere(s, pid) ==> s.workers[pid].pc.must !! FilesIn(s.files, s.workers[pid].queue))
    case GiveUp => (At(s, pid, Starting) && s.workers[pid].queue !in s.queues) || (AtMoving(s, pid) && !DirThere(s, pid))
    case Check => At(s, pid, Moved)
    case Handle(_) => At(s, pid, Handling)
    case HandlerDone => At(s, pid, Handling)
    case Recheck => At(s, pid, Handled)
    case Signal => At(s, pid, Signalling)
  }

  predicate CanCall(s: State, call: Call) {
    match call
    case ReadInotify => Ready(s) && s.inbox != []
    case ScanOne(q) => s.task.Scanning? && q in s.queues
    case ScanCheck => s.task.Watching? && s.task.queue in s.queues
    case ScanEnd => s.task.Scanning? && s.task.todo !! s.queues.Keys
    case EnterLoop => s.task == Idle && s.booting
    case ReadPipe => Ready(s) && s.pipe != []
    case ReapWorker(pid) => Ready(s) && At(s, pid, Exited)
    case SpawnWorker(i, pid) =>
      Ready(s) && i < |s.mem.watches| && Eligible(s.mem.watches[i]) && pid != 0 && pid !in s.workers
    case TimerMkdir(q, e, ino) => Ready(s) && (q in s.queues || FreshIno(s, ino))
    case TimerWatch => s.task.Ensuring? && (s.task.queue in s.queues || Named(s.mem.watches, s.task.queue))
    case TimerRename => s.task.Delivering? && s.task.queue in s.queues
    case TimerGone => s.task.Delivering?
  }

  predicate Enabled(s: State, step: Step) {
    match step
    case Outside(change) => CanChange(s, change)
    case Work(pid, act) => CanAct(s, pid, act)
    case Do(call) => CanCall(s, call)
  }

  /** The inotify message a change of the directory with this inode causes, if it is watched. */
  function Notify(s: State, ino: nat, mask: Mask): seq<Msg> {
    if ino in s.kernel then s.inbox + [Msg(s.kernel[ino], mask)] else s.inbox
  }

  function WithPc(s: State, pid: nat, pc: Pc): State
    requires pid in s.workers
  {
    s.(workers := s.workers[pid := s.workers[pid].(pc := pc)])
  }

  function AddFile(s: State, q: string, e: string): State
    requires q in s.queues
  {
    s.(files := s.files[q := FilesIn(s.files, q) + {e}], inbox := Notify(s, s.queues[q], MovedIn))
  }

  function MakeDir(s: State, q: string, ino: nat): State {
    s.(queues := s.queues[q := ino], files := s.files - {q}, inbox := s.inbox + [Msg(ROOT_WD, Create)])
  }

  function SendSignal(s: State, pid: nat): State
    requires pid in s.workers
  {
    WithPc(s.(pipe := s.pipe + [s.workers[pid].wd]), pid, Exited)
  }

  function OpenDir(s: State, pid: nat): State
    requires pid in s.workers && s.workers[pid].queue in s.queues
  {
    var q := s.workers[pid].queue;
    WithPc(s, pid, Moving(s.queues[q], FilesIn(s.files, q)))
  }

  /** move_files renames one file (queue-processor.c:72-76). */
  function MoveFile(s: State, pid: nat, e: string): State
    requires AtMoving(s, pid)
  {
    var w := s.workers[pid];
    WithPc(s.(files := s.files[w.queue := FilesIn(s.files, w.queue) - {e}],
              events := s.events[w.queue := FilesIn(s.events, w.queue) + {e}]),
           pid, Moving(w.pc.ino, w.pc.must - {e}))
  }

  /** empty_directory decides whether a worker goes on to busy or is done (queue-processor.c:103, 106). */
  function CheckEvents(s: State, pid: nat, busy: Pc): State
    requires pid in s.workers
  {
    WithPc(s, pid, if FilesIn(s.events, s.workers[pid].queue) == {} then Exited else busy)
  }

  /** inotify_rm_watch (line 176). */
  function Unwatched(kernel: map<nat, nat>, wd: nat): map<nat, nat> {
    map ino | ino in kernel && kernel[ino] != wd :: kernel[ino]
  }

  function TakeMessage(s: State): State
    requires s.inbox != []
  {
    var msg := s.inbox[0];
    var ws := s.mem.watches;
    var i := First(ws, IsWd(msg.wd));
    var scan := i < |ws| && ws[i].kind.RootDir? && msg.mask == Create;
    var gone := i < |ws| && msg.mask == DeleteSelf;
    s.(mem := OnInotify(s.mem, msg.wd, msg.mask, s.pauses),
       task := if scan then Scanning(s.queues.Keys) else Idle,
       inbox := s.inbox[1..],
       kernel := if gone then Unwatched(s.kernel, ws[Dropped(ws, msg.wd)].wd) else s.kernel)
  }

  /** inotify_add_watch in watch_path; a directory already watched is skipped (lines 103-106, 120-122). */
  function AddKernelWatch(s: State, q: string, back: Task): State
    requires q in s.queues
  {
    if s.queues[q] in s.kernel then s.(task := back)
    else s.(task := Watching(q, s.nextWd, back), kernel := s.kernel[s.queues[q] := s.nextWd], nextWd := s.nextWd + 1)
  }

  /** The rest of watch_path. */
  function EnterWatch(s: State): State
    requires s.task.Watching? && s.task.queue in s.queues
  {
    var q := s.task.queue;
    s.(mem := AddWatch(s.mem, q, QueueDir, s.task.wd, s.queues[q], FilesIn(s.files, q) != {}), task := s.task.back)
  }

  function StartWorker(s: State, i: nat, pid: nat): State
    requires i < |s.mem.watches|
  {
    var w := s.mem.watches[i];
    s.(mem := Spawn(s.mem, i, pid), workers := s.workers[pid := Worker(w.wd, w.name, Starting)])
  }

  /** The mkdir of ensure_queue_dir (line 300). */
  function EnsureDir(s: State, q: string, e: string, ino: nat): State {
    (if q in s.queues then s else MakeDir(s, q, ino)).(task := Ensuring(q, e))
  }

  /** The rest of ensure_queue_dir (lines 305-307). */
  function EnsureQueueWatch(s: State): State
    requires s.task.Ensuring? && (s.task.queue in s.queues || Named(s.mem.watches, s.task.queue))
  {
    var back := Delivering(s.task.queue, s.task.event);
    if Named(s.mem.watches, s.task.queue) then s.(task := back) else AddKernelWatch(s, s.task.queue, back)
  }

  /** The rename of move_timer_event succeeds (lines 324-330). */
  function Deliver(s: State): State
    requires s.task.Delivering? && s.task.queue in s.queues
  {
    AddFile(s, s.task.queue, s.task.event).(mem := OnTimerMove(s.mem, s.task.queue), task := Idle)
  }

  function RemoveDir(s: State, q: string): State
    requires q in s.queues
  {
    s.(queues := s.queues - {q}, files := s.files - {q},
       inbox := Notify(s, s.queues[q], DeleteSelf), kernel := s.kernel - {s.queues[q]})
  }

  function Changed(s: State, change: Change): State
    requires CanChange(s, change)
  {
    match change
    case MakeQueue(q, ino) => MakeDir(s, q, ino)
    case RemoveQueue(q) => RemoveDir(s, q)
    case Publish(q, e) => AddFile(s, q, e)
    case SetPause(n) => s.(pauses := s.pauses + {n}, inbox := s.inbox + [Msg(PAUSE_WD, Create)])
    case ClearPause(n) => s.(pauses := s.pauses - {n}, inbox := s.inbox + [Msg(PAUSE_WD, Delete)])
  }

  function Acted(s: State, pid: nat, act: Act): State
    requires CanAct(s, pid, act)
  {
    match act
    case Open => OpenDir(s, pid)
    case Move(e) => MoveFile(s, pid, e)
    case EndMove => WithPc(s, pid, Moved)
    case GiveUp => WithPc(s, pid, Exited)
    case Check => CheckEvents(s, pid, Handling)
    case Handle(left) => s.(events := s.events[s.workers[pid].queue := left])
    case HandlerDone => WithPc(s, pid, Handled)
    case Recheck => CheckEvents(s, pid, Signalling)
    case Signal => SendSignal(s, pid)
  }

  function Called(s: State, call: Call): State
    requires CanCall(s, call)
  {
    match call
    case ReadInotify => TakeMessage(s)
    case ScanOne(q) => AddKernelWatch(s, q, Scanning(s.task.todo - {q}))
    case ScanCheck => EnterWatch(s)
    case ScanEnd => s.(task := Idle)
    case EnterLoop => s.(mem := ApplyPause(s.mem, s.pauses), booting := false)
    case ReadPipe => s.(mem := OnPipe(s.mem, s.pipe[0]), pipe := s.pipe[1..])
    case ReapWorker(pid) => s.(mem := Reap(s.mem, pid), workers := s.workers - {pid})
    case SpawnWorker(i, pid) => StartWorker(s, i, pid)
    case TimerMkdir(q, e, ino) => EnsureDir(s, q, e, ino)
    case TimerWatch => EnsureQueueWatch(s)
    case TimerRename => Deliver(s)
    case TimerGone => s.(task := Idle)
  }

  function Apply(s: State, step: Step): State
    requires Enabled(s, step)
  {
    match step
    case Outside(change) => Changed(s, change)
    case Work(pid, act) => Acted(s, pid, act)
    case Do(call) => Called(s, call)
  }

  /** The memory of a daemon that watches the root and pause directories. */
  function FirstMemory(): Memory {
    Memory([Watch(".", RootDir, ROOT_WD, ROOT_INO, false, false, 0), Watch(".", PauseDir, PAUSE_WD, PAUSE_INO, false, false, 0)],
           0, false, false)
  }

  ghost predicate DistinctInodes(queues: map<string, nat>) {
    && (forall q, p | q in queues && p in queues && q != p :: queues[q] != queues[p])
    && (forall q | q in queues :: queues[q] >= FIRST_QUEUE_INO)
  }

  /** The daemon has just watched the pause and root directories and starts its first
      scan; queues may already hold events or be paused, no event is being handled. */
  ghost predicate Init(s: State) {
    && s.mem == FirstMemory() && s.task == Scanning(s.queues.Keys) && s.booting
    && DistinctInodes(s.queues)
    && s.events == map[] && s.inbox == [] && s.pipe == [] && s.workers == map[] && s.kernel == map[]
    && s.nextWd == FIRST_QUEUE_WD
  }

  ghost predicate CanRun(s: State, steps: seq<Step>)
    decreases |steps|
  {
    steps == [] || (Enabled(s, steps[0]) && CanRun(Apply(s, steps[0]), steps[1..]))
  }

  ghost function Run(s: State, steps: seq<Step>): State
    requires CanRun(s, steps)
    decreases |steps|
  {
    if steps == [] then s else Run(Apply(s, steps[0]), steps[1..])
  }

  lemma {:induction false} RunAppend(s: State, steps: seq<Step>, more: seq<Step>)
    requires CanRun(s, steps) && CanRun(Run(s, steps), more)
    ensures CanRun(s, steps + more) && Run(s, steps + more) == Run(Run(s, steps), more)
    decreases |steps|
  {
    if steps == [] {
      assert steps + more == more;
    } else {
      assert (steps + more)[1..] == steps[1..] + more;
      RunAppend(Apply(s, steps[0]), steps[1..], more);
    }
  }

  lemma RunOne(s: State, step: Step)
    requires Enabled(s, step)
    ensures CanRun(s, [step]) && Run(s, [step]) == Apply(s, step)
  {
    assert [step][1..] == [];
  }

  // ----- safety in every run, directories coming and going -----

  /** Each watch's pid is the one unreaped worker started for it; limit bounds the descriptors in use. */
  ghost predicate Staffed(ws: seq<Watch>, workers: map<nat, Worker>, limit: nat) {
    && 0 !in workers
    && (forall i, j | 0 <= i < j < |ws| :: ws[i].wd != ws[j].wd)
    && (forall i | 0 <= i < |ws| :: ws[i].wd < limit)
    && (forall i | 0 <= i < |ws| && ws[i].pid != 0 ::
          ws[i].pid in workers && workers[ws[i].pid].wd == ws[i].wd && workers[ws[i].pid].queue == ws[i].name)
    && (forall i, pid | 0 <= i < |ws| && pid in workers && workers[pid].wd == ws[i].wd :: ws[i].pid == pid)
    && (forall pid | pid in workers :: workers[pid].wd < limit)
  }

  ghost predicate Fresh(wd: nat, ws: seq<Watch>, workers: map<nat, Worker>, limit: nat) {
    && wd < limit
    && (forall i | 0 <= i < |ws| :: ws[i].wd != wd)
    && (forall pid | pid in workers :: workers[pid].wd != wd)
  }

  /** The counter covers the dirty queues and no watch has two unreaped workers. */
  ghost predicate Safe(s: State) {
    && Surplus(s.mem) >= 0
    && Staffed(s.mem.watches, s.workers, s.nextWd)
    && (s.task.Watching? ==> Fresh(s.task.wd, s.mem.watches, s.workers, s.nextWd))
    && (s.task.Watching? ==> !s.task.back.Watching?)
  }

  lemma MarkDirtyStaffed(m: Memory, i: nat, workers: map<nat, Worker>, limit: nat)
    requires i < |m.watches| && Staffed(m.watches, workers, limit)
    ensures Staffed(MarkDirty(m, i).watches, workers, limit)
  {
  }

  lemma DropStaffed(ws: seq<Watch>, i: nat, workers: map<nat, Worker>, limit: nat)
    requires i < |ws| && Staffed(ws, workers, limit)
    ensures Staffed(ws[..i] + ws[i + 1..], workers, limit)
  {
    var out := ws[..i] + ws[i + 1..];
    assert forall j | 0 <= j < |out| :: out[j] == ws[if j < i then j else j + 1];
  }

  lemma PausedStaffed(ws: seq<Watch>, names: set<string>, workers: map<nat, Worker>, limit: nat)
    requires Staffed(ws, workers, limit)
    ensures Staffed(PausedAll(ws, names), workers, limit)
  {
  }

  lemma InotifyStaffed(m: Memory, wd: nat, mask: Mask, names: set<string>, workers: map<nat, Worker>, limit: nat)
    requires Staffed(m.watches, workers, limit)
    ensures Staffed(OnInotify(m, wd, mask, names).watches, workers, limit)
  {
    var i := First(m.watches, IsWd(wd));
    if i < |m.watches| {
      if mask == DeleteSelf {
        InotifyDrops(m, wd, names);
        DropStaffed(m.watches, Dropped(m.watches, wd), workers, limit);
      } else if m.watches[i].kind.QueueDir? {
        MarkDirtyStaffed(m, i, workers, limit);
      } else if m.watches[i].kind.PauseDir? {
        PausedStaffed(m.watches, names, workers, limit);
      }
    }
  }

  lemma EnterStaffed(m: Memory, name: string, wd: nat, ino: nat, nonEmpty: bool, workers: map<nat, Worker>, limit: nat)
    requires Staffed(m.watches, workers, limit) && Fresh(wd, m.watches, workers, limit)
    ensures Staffed(AddWatch(m, name, QueueDir, wd, ino, nonEmpty).watches, workers, limit)
  {
  }

  lemma LimitStaffed(ws: seq<Watch>, workers: map<nat, Worker>, limit: nat)
    requires Staffed(ws, workers, limit)
    ensures Staffed(ws, workers, limit + 1) && Fresh(limit, ws, workers, limit + 1)
  {
  }

  lemma SpawnStaffed(m: Memory, i: nat, pid: nat, workers: map<nat, Worker>, limit: nat)
    requires Staffed(m.watches, workers, limit) && i < |m.watches| && m.watches[i].pid == 0 && pid != 0 && pid !in workers
    ensures Staffed(Spawn(m, i, pid).watches, workers[pid := Worker(m.watches[i].wd, m.watches[i].name, Starting)], limit)
  {
  }

  lemma ReapStaffed(ws: seq<Watch>, pid: nat, workers: map<nat, Worker>, limit: nat)
    requires Staffed(ws, workers, limit)
    ensures Staffed(ReapedAll(ws, pid), workers - {pid}, limit)
  {
  }

  lemma StaffedWithPc(ws: seq<Watch>, workers: map<nat, Worker>, limit: nat, pid: nat, pc: Pc)
    requires Staffed(ws, workers, limit) && pid in workers
    ensures Staffed(ws, workers[pid := workers[pid].(pc := pc)], limit)
  {
  }

  lemma SafeReadInotify(s: State)
    requires Safe(s) && Ready(s) && s.inbox != []
    ensures Safe(TakeMessage(s))
  {
    var msg := s.inbox[0];
    InotifySurplus(s.mem, msg.wd, msg.mask, s.pauses);
    InotifyStaffed(s.mem, msg.wd, msg.mask, s.pauses, s.workers, s.nextWd);
  }

  lemma SafeEnterWatch(s: State)
    requires Safe(s) && s.task.Watching? && s.task.queue in s.queues
    ensures Safe(EnterWatch(s))
  {
    var q := s.task.queue;
    AddWatchSurplus(s.mem, q, QueueDir, s.task.wd, s.queues[q], FilesIn(s.files, q) != {});
    EnterStaffed(s.mem, q, s.task.wd, s.queues[q], FilesIn(s.files, q) != {}, s.workers, s.nextWd);
  }

  lemma SafeAddKernelWatch(s: State, q: string, back: Task)
    requires Safe(s) && q in s.queues && !back.Watching?
    ensures Safe(AddKernelWatch(s, q, back))
  {
    LimitStaffed(s.mem.watches, s.workers, s.nextWd);
  }

  lemma SafeMark(s: State, i: nat)
    requires Safe(s) && s.task == Idle && i < |s.mem.watches| && s.mem.watches[i].kind.QueueDir?
    ensures Safe(s.(mem := MarkDirty(s.mem, i)))
  {
    MarkDirtySurplus(s.mem, i);
    MarkDirtyStaffed(s.mem, i, s.workers, s.nextWd);
  }

  lemma SafeSpawn(s: State, i: nat, pid: nat)
    requires Safe(s) && CanCall(s, SpawnWorker(i, pid))
    ensures s.mem.dirtyQueues > 0 && Safe(StartWorker(s, i, pid))
  {
    SpawnSurplus(s.mem, i, pid);
    DirtyCountPositive(s.mem.watches, i);
    SpawnStaffed(s.mem, i, pid, s.workers, s.nextWd);
  }

  lemma SafeChange(s: State, change: Change)
    requires Safe(s) && CanChange(s, change)
    ensures Safe(Changed(s, change))
  {
  }

  lemma SafeAct(s: State, pid: nat, act: Act)
    requires Safe(s) && CanAct(s, pid, act)
    ensures Safe(Acted(s, pid, act))
  {
    if !act.Handle? {
      StaffedWithPc(s.mem.watches, s.workers, s.nextWd, pid, Acted(s, pid, act).workers[pid].pc);
    }
  }

  lemma SafeCall(s: State, call: Call)
    requires Safe(s) && CanCall(s, call)
    ensures Safe(Called(s, call))
  {
    match call
    case SpawnWorker(i, pid) => SafeSpawn(s, i, pid);
    case ReapWorker(pid) =>
      ReapSurplus(s.mem, pid);
      ReapStaffed(s.mem.watches, pid, s.workers, s.nextWd);
    case ReadInotify => SafeReadInotify(s);
    case ScanCheck => SafeEnterWatch(s);
    case ScanOne(q) => SafeAddKernelWatch(s, q, Scanning(s.task.todo - {q}));
    case EnterLoop =>
      PauseSurplus(s.mem, s.pauses);
      PausedStaffed(s.mem.watches, s.pauses, s.workers, s.nextWd);
    case ReadPipe =>
      var i := First(s.mem.watches, IsQueueWd(s.pipe[0]));
      if i < |s.mem.watches| {
        SafeMark(s, i);
      }
    case _ => SafeTimer(s, call);
  }

  lemma SafeDeliver(s: State)
    requires Safe(s) && s.task.Delivering? && s.task.queue in s.queues
    ensures Safe(Deliver(s))
  {
    var i := First(s.mem.watches, IsQueueNamed(s.task.queue));
    if i < |s.mem.watches| {
      SafeMark(s.(task := Idle), i);
    }
  }

  lemma SafeTimer(s: State, call: Call)
    requires Safe(s) && CanCall(s, call) && (call.TimerMkdir? || call.TimerWatch? || call.TimerRename? || call.TimerGone? || call.ScanEnd?)
    ensures Safe(Called(s, call))
  {
    if call.TimerWatch? {
      if !Named(s.mem.watches, s.task.queue) {
        SafeAddKernelWatch(s, s.task.queue, Delivering(s.task.queue, s.task.event));
      }
    } else if call.TimerRename? {
      SafeDeliver(s);
    }
  }

  lemma SafeStep(s: State, step: Step)
    requires Safe(s) && Enabled(s, step)
    ensures Safe(Apply(s, step))
  {
    match step
    case Outside(change) => SafeChange(s, change);
    case Work(pid, act) => SafeAct(s, pid, act);
    case Do(call) => SafeCall(s, call);
  }

  lemma {:induction false} SafeRun(s: State, steps: seq<Step>)
    requires Safe(s) && CanRun(s, steps)
    ensures Safe(Run(s, steps))
    decreases |steps|
  {
    if steps != [] {
      SafeStep(s, steps[0]);
      SafeRun(Apply(s, steps[0]), steps[1..]);
    }
  }

  lemma InitCount(ws: seq<Watch>)
    requires |ws| == 2 && !DirtyQueue(ws[0]) && !DirtyQueue(ws[1])
    ensures DirtyCount(ws) == 0
  {
    assert DirtyCount(ws) == DirtyCount(ws[1..]) == DirtyCount(ws[1..][1..]);
  }

  lemma InitSafe(s: State)
    requires Init(s)
    ensures Safe(s) && Surplus(s.mem) == 0
  {
    InitCount(s.mem.watches);
  }

  // ----- the counter -----

  /** The step reads the message that a dirty watch's directory is gone. */
  ghost predicate Forgets(s: State, step: Step) {
    step == Do(ReadInotify) && s.inbox != [] && DropsDirty(s.mem.watches, s.inbox[0].wd, s.inbox[0].mask)
  }

  /** How often a run drops a dirty watch. */
  ghost function Forgotten(s: State, steps: seq<Step>): nat
    requires CanRun(s, steps)
    decreases |steps|
  {
    if steps == [] then 0 else (if Forgets(s, steps[0]) then 1 else 0) + Forgotten(Apply(s, steps[0]), steps[1..])
  }

  lemma SurplusCall(s: State, call: Call)
    requires CanCall(s, call)
    ensures Surplus(Called(s, call).mem) == Surplus(s.mem) + if Forgets(s, Do(call)) then 1 else 0
  {
    match call
    case ReadInotify => InotifySurplus(s.mem, s.inbox[0].wd, s.inbox[0].mask, s.pauses);
    case ScanCheck =>
      var q := s.task.queue;
      AddWatchSurplus(s.mem, q, QueueDir, s.task.wd, s.queues[q], FilesIn(s.files, q) != {});
    case EnterLoop => PauseSurplus(s.mem, s.pauses);
    case ReadPipe => PipeSurplus(s.mem, s.pipe[0]);
    case ReapWorker(pid) => ReapSurplus(s.mem, pid);
    case SpawnWorker(i, pid) => SpawnSurplus(s.mem, i, pid);
    case TimerRename => TimerMoveSurplus(s.mem, s.task.queue);
    case _ =>
  }

  lemma ChangeKeepsMemory(s: State, change: Change)
    requires CanChange(s, change)
    ensures Changed(s, change).mem == s.mem && Changed(s, change).task == s.task
  {
  }

  lemma ActKeepsMemory(s: State, pid: nat, act: Act)
    requires CanAct(s, pid, act)
    ensures Acted(s, pid, act).mem == s.mem && Acted(s, pid, act).task == s.task
  {
  }

  lemma SurplusStep(s: State, step: Step)
    requires Enabled(s, step)
    ensures Surplus(Apply(s, step).mem) == Surplus(s.mem) + if Forgets(s, step) then 1 else 0
  {
    match step
    case Outside(change) => ChangeKeepsMemory(s, change);
    case Work(pid, act) => ActKeepsMemory(s, pid, act);
    case Do(call) => SurplusCall(s, call);
  }

  lemma {:induction false} SurplusRun(s: State, steps: seq<Step>)
    requires CanRun(s, steps)
    ensures Surplus(Run(s, steps).mem) == Surplus(s.mem) + Forgotten(s, steps)
    decreases |steps|
  {
    if steps != [] {
      SurplusStep(s, steps[0]);
      SurplusRun(Apply(s, steps[0]), steps[1..]);
    }
  }

  /** In every run: dirty_queues is the number of dirty queues plus the number of dirty
      watches dropped so far; so the BUG abort of line 728 is never reached and a blocking
      epoll_wait never hides a dirty queue.  And no watch has two unreaped workers. */
  lemma EveryRunIsSafe(s: State, steps: seq<Step>)
    requires Init(s) && CanRun(s, steps)
    ensures var t := Run(s, steps);
            && t.mem.dirtyQueues == DirtyCount(t.mem.watches) + Forgotten(s, steps)
            && (forall i | 0 <= i < |t.mem.watches| && DirtyQueue(t.mem.watches[i]) :: t.mem.dirtyQueues > 0)
            && (forall i, p, q | 0 <= i < |t.mem.watches| && p in t.workers && q in t.workers
                                 && t.workers[p].wd == t.workers[q].wd == t.mem.watches[i].wd :: p == q)
  {
    InitSafe(s);
    SafeRun(s, steps);
    SurplusRun(s, steps);
    var t := Run(s, steps);
    forall i | 0 <= i < |t.mem.watches| && DirtyQueue(t.mem.watches[i]) ensures t.mem.dirtyQueues > 0 {
      DirtyCountPositive(t.mem.watches, i);
    }
  }

  // ----- the kernel's watches and the watch list, in every run -----

  /** The list ends in the two root watches; before them are watches of queues. */
  ghost predicate Shaped(ws: seq<Watch>) {
    && |ws| >= 2
    && ws[|ws| - 2].kind.RootDir? && ws[|ws| - 2].wd == ROOT_WD && ws[|ws| - 2].ino == ROOT_INO
    && ws[|ws| - 1].kind.PauseDir? && ws[|ws| - 1].wd == PAUSE_WD && ws[|ws| - 1].ino == PAUSE_INO
    && forall i | 0 <= i < |ws| - 2 :: ws[i].kind.QueueDir? && ws[i].wd >= FIRST_QUEUE_WD && ws[i].ino >= FIRST_QUEUE_INO
  }

  ghost predicate GonePosted(inbox: seq<Msg>) {
    forall m | m in inbox && m.mask == DeleteSelf :: m.wd >= FIRST_QUEUE_WD
  }

  ghost predicate KernelBelow(kernel: map<nat, nat>, limit: nat) {
    limit >= FIRST_QUEUE_WD && forall i | i in kernel :: FIRST_QUEUE_WD <= kernel[i] < limit
  }

  ghost predicate Grounded(s: State) {
    && Shaped(s.mem.watches) && GonePosted(s.inbox) && KernelBelow(s.kernel, s.nextWd) && DistinctInodes(s.queues)
    && (s.task.Watching? ==> s.task.wd >= FIRST_QUEUE_WD)
  }

  ghost predicate Entered(ws: seq<Watch>, q: string, wd: nat) {
    exists i :: 0 <= i < |ws| && ws[i].kind.QueueDir? && ws[i].name == q && ws[i].wd == wd
  }

  ghost predicate BeingEntered(task: Task, q: string, wd: nat) {
    task.Watching? && task.queue == q && task.wd == wd
  }

  /** Every queue directory that inotify watches is in the list or about to be entered. */
  ghost predicate KernelListed(ws: seq<Watch>, queues: map<string, nat>, kernel: map<nat, nat>, task: Task) {
    forall q | q in queues && queues[q] in kernel ::
      Entered(ws, q, kernel[queues[q]]) || BeingEntered(task, q, kernel[queues[q]])
  }

  /** A queue that a timer event is about to be renamed into is in the list. */
  ghost predicate DeliveryListed(ws: seq<Watch>, task: Task) {
    && (task.Delivering? ==> Named(ws, task.queue))
    && (task.Watching? ==> task.back.Scanning? || (task.back.Delivering? && task.back.queue == task.queue))
  }

  ghost predicate Linked(s: State) {
    && Grounded(s)
    && KernelListed(s.mem.watches, s.queues, s.kernel, s.task)
    && DeliveryListed(s.mem.watches, s.task)
  }

  /** The lists differ in flags and pids only. */
  ghost predicate SameList(ws: seq<Watch>, ws': seq<Watch>) {
    && |ws| == |ws'|
    && forall i | 0 <= i < |ws| ::
         ws'[i].name == ws[i].name && ws'[i].kind == ws[i].kind && ws'[i].wd == ws[i].wd && ws'[i].ino == ws[i].ino
  }

  lemma EnteredIsNamed(ws: seq<Watch>, q: string, wd: nat)
    requires Entered(ws, q, wd)
    ensures Named(ws, q)
  {
    var i :| 0 <= i < |ws| && ws[i].kind.QueueDir? && ws[i].name == q && ws[i].wd == wd;
    assert IsQueueNamed(q)(ws[i]);
  }

  lemma SameListEntered(ws: seq<Watch>, ws': seq<Watch>, q: string, wd: nat)
    requires SameList(ws, ws') && Entered(ws, q, wd)
    ensures Entered(ws', q, wd)
  {
    var i :| 0 <= i < |ws| && ws[i].kind.QueueDir? && ws[i].name == q && ws[i].wd == wd;
    assert ws'[i].kind.QueueDir?;
  }

  lemma SameListNamed(ws: seq<Watch>, ws': seq<Watch>, q: string)
    requires SameList(ws, ws')
    ensures Named(ws', q) == Named(ws, q)
  {
    SameFirst(ws, ws', IsQueueNamed(q));
  }

  lemma SameListKernel(s: State, ws': seq<Watch>)
    requires KernelListed(s.mem.watches, s.queues, s.kernel, s.task) && SameList(s.mem.watches, ws')
    ensures KernelListed(ws', s.queues, s.kernel, s.task)
  {
    var ws := s.mem.watches;
    forall q | q in s.queues && s.queues[q] in s.kernel
      ensures Entered(ws', q, s.kernel[s.queues[q]]) || BeingEntered(s.task, q, s.kernel[s.queues[q]])
    {
      if Entered(ws, q, s.kernel[s.queues[q]]) {
        SameListEntered(ws, ws', q, s.kernel[s.queues[q]]);
      }
    }
  }

  /** A call that changes flags and pids only. */
  lemma LinkedSameList(s: State, t: State)
    requires Linked(s) && SameList(s.mem.watches, t.mem.watches) && GonePosted(t.inbox)
    requires t.queues == s.queues && t.kernel == s.kernel && t.nextWd == s.nextWd
    requires t.task == s.task || !(s.task.Watching? || t.task.Watching? || t.task.Delivering?)
    ensures Linked(t)
  {
    SameListKernel(s, t.mem.watches);
    if s.task.Delivering? {
      SameListNamed(s.mem.watches, t.mem.watches, s.task.queue);
    }
  }

  lemma GoneTail(inbox: seq<Msg>)
    requires GonePosted(inbox) && inbox != []
    ensures GonePosted(inbox[1..])
  {
  }

  lemma GonePost(inbox: seq<Msg>, msg: Msg)
    requires GonePosted(inbox) && (msg.mask == DeleteSelf ==> msg.wd >= FIRST_QUEUE_WD)
    ensures GonePosted(inbox + [msg])
  {
  }

  lemma DropEntered(ws: seq<Watch>, k: nat, q: string, wd: nat)
    requires k < |ws| && Entered(ws, q, wd) && ws[k].wd != wd
    ensures Entered(ws[..k] + ws[k + 1..], q, wd)
  {
    var out := ws[..k] + ws[k + 1..];
    var i :| 0 <= i < |ws| && ws[i].kind.QueueDir? && ws[i].name == q && ws[i].wd == wd;
    var j := if i < k then i else i - 1;
    assert out[j] == ws[i];
  }

  lemma DropShaped(ws: seq<Watch>, k: nat)
    requires Shaped(ws) && k < |ws| - 2
    ensures Shaped(ws[..k] + ws[k + 1..])
  {
    var out := ws[..k] + ws[k + 1..];
    assert forall j | 0 <= j < |out| :: out[j] == ws[if j < k then j else j + 1];
  }

  /** unwatch_path never takes one of the root watches. */
  lemma DroppedIsQueue(ws: seq<Watch>, wd: nat)
    requires Shaped(ws) && wd >= FIRST_QUEUE_WD && First(ws, IsWd(wd)) < |ws|
    ensures Dropped(ws, wd) < |ws| - 2
  {
    var i := First(ws, IsWd(wd));
    assert ws[i].wd == wd;
  }

  lemma DropKernel(s: State, k: nat)
    requires KernelListed(s.mem.watches, s.queues, s.kernel, Idle) && k < |s.mem.watches|
    ensures KernelListed(s.mem.watches[..k] + s.mem.watches[k + 1..], s.queues, Unwatched(s.kernel, s.mem.watches[k].wd), Idle)
  {
    var ws, kernel := s.mem.watches, Unwatched(s.kernel, s.mem.watches[k].wd);
    forall q | q in s.queues && s.queues[q] in kernel ensures Entered(ws[..k] + ws[k + 1..], q, kernel[s.queues[q]]) {
      DropEntered(ws, k, q, s.kernel[s.queues[q]]);
    }
  }

  /** The state after the message that watch k's directory is gone. */
  function DropWatch(s: State, k: nat): State
    requires k < |s.mem.watches| && s.inbox != []
  {
    s.(mem := s.mem.(watches := s.mem.watches[..k] + s.mem.watches[k + 1..]),
       inbox := s.inbox[1..],
       kernel := Unwatched(s.kernel, s.mem.watches[k].wd))
  }

  lemma GoneDrops(s: State)
    requires s.task == Idle && s.inbox != [] && s.inbox[0].mask == DeleteSelf
    requires First(s.mem.watches, IsWd(s.inbox[0].wd)) < |s.mem.watches|
    ensures TakeMessage(s) == DropWatch(s, Dropped(s.mem.watches, s.inbox[0].wd))
  {
    InotifyDrops(s.mem, s.inbox[0].wd, s.pauses);
  }

  lemma LinkedDrop(s: State, k: nat)
    requires Linked(s) && s.task == Idle && s.inbox != [] && k < |s.mem.watches| - 2
    ensures Linked(DropWatch(s, k))
  {
    GoneTail(s.inbox);
    DropShaped(s.mem.watches, k);
    DropKernel(s, k);
  }

  lemma LinkedGone(s: State)
    requires Linked(s) && s.task == Idle && s.inbox != [] && s.inbox[0].mask == DeleteSelf
    requires First(s.mem.watches, IsWd(s.inbox[0].wd)) < |s.mem.watches|
    ensures Linked(TakeMessage(s))
  {
    assert s.inbox[0] in s.inbox;
    DroppedIsQueue(s.mem.watches, s.inbox[0].wd);
    LinkedDrop(s, Dropped(s.mem.watches, s.inbox[0].wd));
    GoneDrops(s);
  }

  lemma InotifySameList(m: Memory, wd: nat, mask: Mask, names: set<string>)
    requires mask != DeleteSelf || First(m.watches, IsWd(wd)) == |m.watches|
    ensures SameList(m.watches, OnInotify(m, wd, mask, names).watches)
  {
  }

  lemma LinkedRead(s: State)
    requires Linked(s) && Ready(s) && s.inbox != []
    ensures Linked(TakeMessage(s))
  {
    var msg := s.inbox[0];
    if msg.mask == DeleteSelf && First(s.mem.watches, IsWd(msg.wd)) < |s.mem.watches| {
      LinkedGone(s);
    } else {
      InotifySameList(s.mem, msg.wd, msg.mask, s.pauses);
      GoneTail(s.inbox);
      LinkedSameList(s, TakeMessage(s));
    }
  }

  lemma EnterKeepsEntered(w: Watch, ws: seq<Watch>, q: string, wd: nat)
    requires Entered(ws, q, wd)
    ensures Entered([w] + ws, q, wd)
  {
    var i :| 0 <= i < |ws| && ws[i].kind.QueueDir? && ws[i].name == q && ws[i].wd == wd;
    assert ([w] + ws)[i + 1] == ws[i];
  }

  lemma NowEntered(w: Watch, ws: seq<Watch>)
    requires w.kind.QueueDir?
    ensures Entered([w] + ws, w.name, w.wd) && Named([w] + ws, w.name)
  {
    assert ([w] + ws)[0] == w;
    EnteredIsNamed([w] + ws, w.name, w.wd);
  }

  lemma EnterKernel(s: State, w: Watch, task: Task)
    requires s.task.Watching? && w.kind.QueueDir? && w.name == s.task.queue && w.wd == s.task.wd
    requires KernelListed(s.mem.watches, s.queues, s.kernel, s.task)
    ensures KernelListed([w] + s.mem.watches, s.queues, s.kernel, task)
  {
    var ws := s.mem.watches;
    NowEntered(w, ws);
    forall q | q in s.queues && s.queues[q] in s.kernel ensures Entered([w] + ws, q, s.kernel[s.queues[q]]) {
      if Entered(ws, q, s.kernel[s.queues[q]]) {
        EnterKeepsEntered(w, ws, q, s.kernel[s.queues[q]]);
      }
    }
  }

  lemma LinkedEnterWatch(s: State)
    requires Linked(s) && s.task.Watching? && s.task.queue in s.queues
    ensures Linked(EnterWatch(s))
  {
    var ws, t := s.mem.watches, EnterWatch(s);
    var w := t.mem.watches[0];
    assert t.mem.watches == [w] + ws;
    NowEntered(w, ws);
    EnterKernel(s, w, t.task);
  }

  lemma AddKernel(s: State, q: string, wd: nat, back: Task)
    requires q in s.queues && s.queues[q] !in s.kernel && DistinctInodes(s.queues) && !s.task.Watching?
    requires KernelListed(s.mem.watches, s.queues, s.kernel, s.task)
    ensures KernelListed(s.mem.watches, s.queues, s.kernel[s.queues[q] := wd], Watching(q, wd, back))
  {
  }

  lemma LinkedAddKernelWatch(s: State, q: string, back: Task)
    requires Linked(s) && q in s.queues && !s.task.Watching?
    requires back.Scanning? || (back.Delivering? && back.queue == q && s.queues[q] !in s.kernel)
    ensures Linked(AddKernelWatch(s, q, back))
  {
    if s.queues[q] in s.kernel {
      LinkedSameList(s, AddKernelWatch(s, q, back));
    } else {
      AddKernel(s, q, s.nextWd, back);
    }
  }

  /** A directory that inotify watches is found by name when the daemon is not entering one. */
  lemma WatchedIsNamed(s: State, q: string)
    requires Linked(s) && !s.task.Watching? && q in s.queues && s.queues[q] in s.kernel
    ensures Named(s.mem.watches, q)
  {
    EnteredIsNamed(s.mem.watches, q, s.kernel[s.queues[q]]);
  }

  lemma LinkedTimerWatch(s: State)
    requires Linked(s) && CanCall(s, TimerWatch)
    ensures Linked(EnsureQueueWatch(s))
  {
    var q := s.task.queue;
    if !Named(s.mem.watches, q) {
      if s.queues[q] in s.kernel {
        WatchedIsNamed(s, q);
      }
      LinkedAddKernelWatch(s, q, Delivering(q, s.task.event));
    }
  }

  lemma LinkedMakeDir(s: State, q: string, ino: nat)
    requires Linked(s) && q !in s.queues && FreshIno(s, ino)
    ensures Linked(MakeDir(s, q, ino))
  {
    GonePost(s.inbox, Msg(ROOT_WD, Create));
  }

  lemma LinkedRemoveDir(s: State, q: string)
    requires Linked(s) && q in s.queues
    ensures Linked(RemoveDir(s, q))
  {
    if s.queues[q] in s.kernel {
      GonePost(s.inbox, Msg(s.kernel[s.queues[q]], DeleteSelf));
    }
  }

  lemma LinkedAddFile(s: State, q: string, e: string)
    requires Linked(s) && q in s.queues
    ensures Linked(AddFile(s, q, e))
  {
    if s.queues[q] in s.kernel {
      GonePost(s.inbox, Msg(s.kernel[s.queues[q]], MovedIn));
    }
    LinkedSameList(s, AddFile(s, q, e));
  }

  lemma LinkedChange(s: State, change: Change)
    requires Linked(s) && CanChange(s, change)
    ensures Linked(Changed(s, change))
  {
    match change
    case MakeQueue(q, ino) => LinkedMakeDir(s, q, ino);
    case RemoveQueue(q) => LinkedRemoveDir(s, q);
    case Publish(q, e) => LinkedAddFile(s, q, e);
    case SetPause(n) =>
      GonePost(s.inbox, Msg(PAUSE_WD, Create));
      LinkedSameList(s, Changed(s, change));
    case ClearPause(n) =>
      GonePost(s.inbox, Msg(PAUSE_WD, Delete));
      LinkedSameList(s, Changed(s, change));
  }

  lemma LinkedAct(s: State, pid: nat, act: Act)
    requires Linked(s) && CanAct(s, pid, act)
    ensures Linked(Acted(s, pid, act))
  {
    LinkedSameList(s, Acted(s, pid, act));
  }

  lemma TimerSameList(m: Memory, q: string)
    ensures SameList(m.watches, OnTimerMove(m, q).watches)
  {
  }

  lemma LinkedDeliver(s: State)
    requires Linked(s) && CanCall(s, TimerRename)
    ensures Linked(Deliver(s))
  {
    LinkedAddFile(s, s.task.queue, s.task.event);
    TimerSameList(s.mem, s.task.queue);
    LinkedSameList(AddFile(s, s.task.queue, s.task.event), Deliver(s));
  }

  lemma LinkedTimer(s: State, call: Call)
    requires Linked(s) && CanCall(s, call) && (call.TimerMkdir? || call.TimerWatch? || call.TimerRename? || call.TimerGone?)
    ensures Linked(Called(s, call))
  {
    match call
    case TimerMkdir(q, e, ino) =>
      if q !in s.queues {
        LinkedMakeDir(s, q, ino);
      }
    case TimerWatch => LinkedTimerWatch(s);
    case TimerRename => LinkedDeliver(s);
    case TimerGone => LinkedSameList(s, s.(task := Idle));
  }

  lemma FlagsSameList(s: State, call: Call)
    requires CanCall(s, call) && (call.EnterLoop? || call.ReadPipe? || call.ReapWorker? || call.SpawnWorker?)
    ensures SameList(s.mem.watches, Called(s, call).mem.watches)
  {
  }

  lemma LinkedCall(s: State, call: Call)
    requires Linked(s) && CanCall(s, call)
    ensures Linked(Called(s, call))
  {
    match call
    case ReadInotify => LinkedRead(s);
    case ScanOne(q) => LinkedAddKernelWatch(s, q, Scanning(s.task.todo - {q}));
    case ScanCheck => LinkedEnterWatch(s);
    case ScanEnd => LinkedSameList(s, s.(task := Idle));
    case TimerMkdir(_, _, _) => LinkedTimer(s, call);
    case TimerWatch => LinkedTimer(s, call);
    case TimerRename => LinkedTimer(s, call);
    case TimerGone => LinkedTimer(s, call);
    case _ =>
      FlagsSameList(s, call);
      LinkedSameList(s, Called(s, call));
  }

  lemma LinkedStep(s: State, step: Step)
    requires Linked(s) && Enabled(s, step)
    ensures Linked(Apply(s, step))
  {
    match step
    case Outside(change) => LinkedChange(s, change);
    case Work(pid, act) => LinkedAct(s, pid, act);
    case Do(call) => LinkedCall(s, call);
  }

  lemma {:induction false} LinkedRun(s: State, steps: seq<Step>)
    requires Linked(s) && CanRun(s, steps)
    ensures Linked(Run(s, steps))
    decreases |steps|
  {
    if steps != [] {
      LinkedStep(s, steps[0]);
      LinkedRun(Apply(s, steps[0]), steps[1..]);
    }
  }

  lemma InitLinked(s: State)
    requires Init(s)
    ensures Linked(s)
  {
  }

  lemma DeliverServes(s: State)
    requires Linked(s) && s.task.Delivering? && s.task.queue in s.queues
    ensures Waits(Deliver(s).mem, s.task.queue)
  {
    TimerMoveWaits(s.mem, s.task.queue, s.task.queue);
  }

  /** In every run, when ensure_queue_dir asks inotify for a queue it has not found by
      name the answer is never "watched already", and when a due event is renamed into
      its queue the queue's watch is in the list and becomes dirty. */
  lemma TimerQueueServed(s: State, steps: seq<Step>)
    requires Init(s) && CanRun(s, steps)
    ensures var t := Run(s, steps);
            && (t.task.Ensuring? && t.task.queue in t.queues && t.queues[t.task.queue] in t.kernel ==> Named(t.mem.watches, t.task.queue))
            && (t.task.Delivering? && t.task.queue in t.queues ==> Waits(Deliver(t).mem, t.task.queue))
  {
    InitLinked(s);
    LinkedRun(s, steps);
    var t := Run(s, steps);
    if t.task.Ensuring? && t.task.queue in t.queues && t.queues[t.task.queue] in t.kernel {
      WatchedIsNamed(t, t.task.queue);
    }
    if t.task.Delivering? && t.task.queue in t.queues {
      DeliverServes(t);
    }
  }
}

/** No event is lost: in every run of the ueventd protocol in which no watched queue
    directory is removed, each event file and each event that a handler has left is
    accounted for by a dirty flag, a pending message or a worker. */
module UeventDelivery {
  import opened Basics
  import opened UeventDaemon
  import opened UeventProtocol

  /** The queue watches by name; the first watch of a name is the one find_queue_watch returns. */
  function ByName(ws: seq<Watch>): map<string, Watch> {
    if ws == [] then map[]
    else if ws[0].kind.QueueDir? then ByName(ws[1..])[ws[0].name := ws[0]]
    else ByName(ws[1..])
  }

  /** What a worker still does: it moves file e, or it will look at the events again. */
  ghost predicate WillMove(workers: map<nat, Worker>, pid: nat, e: string) {
    pid in workers && (workers[pid].pc.Starting? || (workers[pid].pc.Moving? && e in workers[pid].pc.must))
  }

  ghost predicate WillCheck(workers: map<nat, Worker>, pid: nat) {
    pid in workers && !workers[pid].pc.Exited?
  }

  /** Each watch is on its queue's directory; v is ByName of the watch list. */
  ghost predicate WatchesAgree(v: map<string, Watch>, queues: map<string, nat>, kernel: map<nat, nat>) {
    forall q | q in v ::
      && v[q].name == q && v[q].kind.QueueDir? && q in queues && v[q].ino == queues[q]
      && v[q].ino in kernel && kernel[v[q].ino] == v[q].wd
  }

  ghost predicate DistinctDirs(queues: map<string, nat>, kernel: map<nat, nat>) {
    && (forall q, p | q in queues && p in queues && q != p :: queues[q] != queues[p])
    && (forall i, j | i in kernel && j in kernel && i != j :: kernel[i] != kernel[j])
  }

  /** A directory that the kernel watches is in the list or about to be entered; any
      other one will be found by the scan that is going on or that a message will start. */
  ghost predicate DirsFound(v: map<string, Watch>, queues: map<string, nat>, kernel: map<nat, nat>, task: Task, rootMsg: bool) {
    && (forall q | q in queues && queues[q] in kernel :: q in v || BeingEntered(task, q, kernel[queues[q]]))
    && (forall q | q in queues && queues[q] !in kernel :: q in Todo(task) || rootMsg)
    && (task.Watching? ==> task.queue in queues && task.queue !in v && queues[task.queue] in kernel && !task.back.Watching?)
  }

  /** The workers are exactly the ones the watches name. */
  ghost predicate CrewAgrees(v: map<string, Watch>, workers: map<nat, Worker>) {
    && (forall q | q in v && v[q].pid != 0 :: v[q].pid in workers && workers[v[q].pid].queue == q)
    && (forall pid | pid in workers ::
          pid != 0 && workers[pid].queue in v && v[workers[pid].queue].pid == pid && v[workers[pid].queue].wd == workers[pid].wd)
  }

  /** The directory that a worker moves files out of is the one of its queue. */
  ghost predicate OpenAgrees(queues: map<string, nat>, workers: map<nat, Worker>) {
    forall pid | pid in workers && workers[pid].pc.Moving? ::
      workers[pid].queue in queues && queues[workers[pid].queue] == workers[pid].pc.ino
  }

  /** Every event file of a watched queue: the queue is dirty, or a message is pending, or the worker has yet to move it. */
  ghost predicate FilesCovered(v: map<string, Watch>, files: map<string, set<string>>, inbox: seq<Msg>, workers: map<nat, Worker>) {
    forall q, e | q in v && e in FilesIn(files, q) ::
      v[q].dirty || Msg(v[q].wd, MovedIn) in inbox || WillMove(workers, v[q].pid, e)
  }

  /** Every queue with events in the hands of a handler: it is dirty, or a pipe message is pending, or its worker has yet to check. */
  ghost predicate EventsCovered(v: map<string, Watch>, events: map<string, set<string>>, pipe: seq<nat>, workers: map<nat, Worker>) {
    forall q | FilesIn(events, q) != {} :: q in v && (v[q].dirty || v[q].wd in pipe || WillCheck(workers, v[q].pid))
  }

  ghost predicate NoneGone(inbox: seq<Msg>) {
    forall m | m in inbox :: m.mask != DeleteSelf
  }

  ghost predicate RootMsg(inbox: seq<Msg>) {
    Msg(ROOT_WD, Create) in inbox
  }

  /** What every step keeps. */
  ghost predicate Steady(s: State, v: map<string, Watch>) {
    && NoneGone(s.inbox) && DistinctDirs(s.queues, s.kernel) && KernelBelow(s.kernel, s.nextWd)
    && WatchesAgree(v, s.queues, s.kernel)
    && DirsFound(v, s.queues, s.kernel, s.task, RootMsg(s.inbox))
    && CrewAgrees(v, s.workers) && OpenAgrees(s.queues, s.workers)
    && FilesCovered(v, s.files, s.inbox, s.workers)
    && EventsCovered(v, s.events, s.pipe, s.workers)
  }

  lemma SteadyMakeDir(s: State, v: map<string, Watch>, q: string, ino: nat)
    requires Steady(s, v) && q !in s.queues && ino !in s.kernel && forall p | p in s.queues :: s.queues[p] != ino
    ensures Steady(MakeDir(s, q, ino), v)
  {
  }

  lemma RemoveFinds(v: map<string, Watch>, queues: map<string, nat>, kernel: map<nat, nat>, task: Task, rootMsg: bool, q: string)
    requires WatchesAgree(v, queues, kernel) && DirsFound(v, queues, kernel, task, rootMsg) && DistinctDirs(queues, kernel)
    requires q in queues && queues[q] !in kernel
    ensures WatchesAgree(v, queues - {q}, kernel) && DirsFound(v, queues - {q}, kernel, task, rootMsg) && DistinctDirs(queues - {q}, kernel)
  {
    assert q !in v;
  }

  lemma RemoveCovers(v: map<string, Watch>, queues: map<string, nat>, files: map<string, set<string>>, inbox: seq<Msg>,
                     workers: map<nat, Worker>, q: string)
    requires CrewAgrees(v, workers) && OpenAgrees(queues, workers) && FilesCovered(v, files, inbox, workers) && q !in v
    ensures OpenAgrees(queues - {q}, workers) && FilesCovered(v, files - {q}, inbox, workers)
  {
    forall p, e | p in v && e in FilesIn(files - {q}, p)
      ensures v[p].dirty || Msg(v[p].wd, MovedIn) in inbox || WillMove(workers, v[p].pid, e)
    {
      assert e in FilesIn(files, p);
    }
  }

  /** A directory that is not watched may go. */
  lemma SteadyRemoveDir(s: State, v: map<string, Watch>, q: string)
    requires Steady(s, v) && q in s.queues && s.queues[q] !in s.kernel
    ensures Steady(RemoveDir(s, q), v)
  {
    RemoveFinds(v, s.queues, s.kernel, s.task, RootMsg(s.inbox), q);
    RemoveCovers(v, s.queues, s.files, s.inbox, s.workers, q);
    assert s.kernel - {s.queues[q]} == s.kernel;
  }

  lemma SteadyPost(s: State, v: map<string, Watch>, pauses: set<string>, msg: Msg)
    requires Steady(s, v) && msg.mask != DeleteSelf
    ensures Steady(s.(pauses := pauses, inbox := s.inbox + [msg]), v)
  {
  }

  lemma SteadyAddFile(s: State, v: map<string, Watch>, q: string, e: string)
    requires Steady(s, v) && q in s.queues
    ensures Steady(AddFile(s, q, e), v)
  {
  }

  lemma CrewWithPc(v: map<string, Watch>, workers: map<nat, Worker>, pid: nat, pc: Pc)
    requires CrewAgrees(v, workers) && pid in workers
    ensures CrewAgrees(v, workers[pid := workers[pid].(pc := pc)])
  {
  }

  lemma FilesWithPc(v: map<string, Watch>, files: map<string, set<string>>, inbox: seq<Msg>, workers: map<nat, Worker>, pid: nat, pc: Pc)
    requires FilesCovered(v, files, inbox, workers) && CrewAgrees(v, workers) && pid in workers
    requires forall e | e in FilesIn(files, workers[pid].queue) && WillMove(workers, pid, e) :: pc.Starting? || (pc.Moving? && e in pc.must)
    ensures FilesCovered(v, files, inbox, workers[pid := workers[pid].(pc := pc)])
  {
    var workers' := workers[pid := workers[pid].(pc := pc)];
    forall q, e | q in v && e in FilesIn(files, q) && WillMove(workers, v[q].pid, e)
      ensures WillMove(workers', v[q].pid, e)
    {
    }
  }

  lemma EventsWithPc(v: map<string, Watch>, events: map<string, set<string>>, pipe: seq<nat>, workers: map<nat, Worker>, pid: nat, pc: Pc)
    requires EventsCovered(v, events, pipe, workers) && CrewAgrees(v, workers) && pid in workers
    requires pc.Exited? ==> FilesIn(events, workers[pid].queue) == {} || workers[pid].wd in pipe
    ensures EventsCovered(v, events, pipe, workers[pid := workers[pid].(pc := pc)])
  {
    var workers' := workers[pid := workers[pid].(pc := pc)];
    forall q | FilesIn(events, q) != {} ensures q in v && (v[q].dirty || v[q].wd in pipe || WillCheck(workers', v[q].pid)) {
    }
  }

  lemma OpenWithPc(queues: map<string, nat>, workers: map<nat, Worker>, pid: nat, pc: Pc)
    requires OpenAgrees(queues, workers) && pid in workers
    requires pc.Moving? ==> workers[pid].queue in queues && queues[workers[pid].queue] == pc.ino
    ensures OpenAgrees(queues, workers[pid := workers[pid].(pc := pc)])
  {
  }

  /** A worker may move on when it still moves what it had to and leaves no event behind. */
  lemma SteadyWithPc(s: State, v: map<string, Watch>, pid: nat, pc: Pc)
    requires Steady(s, v) && pid in s.workers
    requires forall e | e in FilesIn(s.files, s.workers[pid].queue) && WillMove(s.workers, pid, e) ::
               pc.Starting? || (pc.Moving? && e in pc.must)
    requires pc.Exited? ==> FilesIn(s.events, s.workers[pid].queue) == {} || s.workers[pid].wd in s.pipe
    requires pc.Moving? ==> s.workers[pid].queue in s.queues && s.queues[s.workers[pid].queue] == pc.ino
    ensures Steady(WithPc(s, pid, pc), v)
  {
    CrewWithPc(v, s.workers, pid, pc);
    OpenWithPc(s.queues, s.workers, pid, pc);
    FilesWithPc(v, s.files, s.inbox, s.workers, pid, pc);
    EventsWithPc(v, s.events, s.pipe, s.workers, pid, pc);
  }

  lemma EventsMoved(v: map<string, Watch>, events: map<string, set<string>>, pipe: seq<nat>, workers: map<nat, Worker>, pid: nat, left: set<string>)
    requires EventsCovered(v, events, pipe, workers) && CrewAgrees(v, workers) && pid in workers && !workers[pid].pc.Exited?
    ensures EventsCovered(v, events[workers[pid].queue := left], pipe, workers)
  {
  }

  lemma FilesMoved(v: map<string, Watch>, files: map<string, set<string>>, inbox: seq<Msg>, workers: map<nat, Worker>, q: string, e: string)
    requires FilesCovered(v, files, inbox, workers)
    ensures FilesCovered(v, files[q := FilesIn(files, q) - {e}], inbox, workers)
  {
  }

  /** The state between the rename of e and the worker's next readdir. */
  function Renamed(s: State, q: string, e: string): State {
    s.(files := s.files[q := FilesIn(s.files, q) - {e}], events := s.events[q := FilesIn(s.events, q) + {e}])
  }

  lemma SteadyRenamed(s: State, v: map<string, Watch>, pid: nat, e: string)
    requires Steady(s, v) && AtMoving(s, pid)
    ensures Steady(Renamed(s, s.workers[pid].queue, e), v)
  {
    var q := s.workers[pid].queue;
    FilesMoved(v, s.files, s.inbox, s.workers, q, e);
    EventsMoved(v, s.events, s.pipe, s.workers, pid, FilesIn(s.events, q) + {e});
  }

  lemma SteadyMoveFile(s: State, v: map<string, Watch>, pid: nat, e: string)
    requires Steady(s, v) && AtMoving(s, pid)
    ensures Steady(MoveFile(s, pid, e), v)
  {
    var w := s.workers[pid];
    var t := Renamed(s, w.queue, e);
    SteadyRenamed(s, v, pid, e);
    assert FilesIn(t.files, w.queue) == FilesIn(s.files, w.queue) - {e};
    SteadyWithPc(t, v, pid, Moving(w.pc.ino, w.pc.must - {e}));
  }

  lemma SteadySignal(s: State, v: map<string, Watch>, pid: nat)
    requires Steady(s, v) && At(s, pid, Signalling)
    ensures Steady(SendSignal(s, pid), v)
  {
    SteadyWithPc(s.(pipe := s.pipe + [s.workers[pid].wd]), v, pid, Exited);
  }

  lemma SteadyHandle(s: State, v: map<string, Watch>, pid: nat, left: set<string>)
    requires Steady(s, v) && At(s, pid, Handling)
    ensures Steady(s.(events := s.events[s.workers[pid].queue := left]), v)
  {
    EventsMoved(v, s.events, s.pipe, s.workers, pid, left);
  }

  /** The two views differ in flags and pids only. */
  ghost predicate SameIds(v: map<string, Watch>, v': map<string, Watch>) {
    && v'.Keys == v.Keys
    && forall q | q in v' :: v'[q].name == v[q].name && v'[q].kind == v[q].kind && v'[q].ino == v[q].ino && v'[q].wd == v[q].wd
  }

  lemma IdsKeep(v: map<string, Watch>, v': map<string, Watch>, queues: map<string, nat>, kernel: map<nat, nat>, task: Task, rootMsg: bool)
    requires SameIds(v, v') && WatchesAgree(v, queues, kernel) && DirsFound(v, queues, kernel, task, rootMsg)
    ensures WatchesAgree(v', queues, kernel) && DirsFound(v', queues, kernel, task, rootMsg)
  {
  }

  lemma MarkCovers(v: map<string, Watch>, q: string, files: map<string, set<string>>, events: map<string, set<string>>,
                   inbox: seq<Msg>, pipe: seq<nat>, workers: map<nat, Worker>)
    requires q in v
    requires CrewAgrees(v, workers) && FilesCovered(v, files, inbox, workers) && EventsCovered(v, events, pipe, workers)
    ensures CrewAgrees(v[q := v[q].(dirty := true)], workers)
    ensures FilesCovered(v[q := v[q].(dirty := true)], files, inbox, workers)
    ensures EventsCovered(v[q := v[q].(dirty := true)], events, pipe, workers)
  {
  }

  lemma SteadyMark(s: State, v: map<string, Watch>, q: string)
    requires Steady(s, v) && q in v
    ensures Steady(s, v[q := v[q].(dirty := true)])
  {
    IdsKeep(v, v[q := v[q].(dirty := true)], s.queues, s.kernel, s.task, RootMsg(s.inbox));
    MarkCovers(v, q, s.files, s.events, s.inbox, s.pipe, s.workers);
  }

  function PausedView(v: map<string, Watch>, names: set<string>): map<string, Watch> {
    map q | q in v :: PausedBy(v[q], names)
  }

  lemma SteadyRepaused(s: State, v: map<string, Watch>, names: set<string>)
    requires Steady(s, v)
    ensures Steady(s, PausedView(v, names))
  {
    IdsKeep(v, PausedView(v, names), s.queues, s.kernel, s.task, RootMsg(s.inbox));
  }

  lemma SteadyDropMessage(s: State, v: map<string, Watch>)
    requires Steady(s, v) && s.inbox != []
    requires forall q | q in v && v[q].wd == s.inbox[0].wd && s.inbox[0].mask == MovedIn :: v[q].dirty
    requires s.inbox[0] == Msg(ROOT_WD, Create) ==> forall q | q in s.queues :: q in Todo(s.task)
    ensures Steady(s.(inbox := s.inbox[1..]), v)
  {
    var inbox := s.inbox[1..];
    forall q, e | q in v && e in FilesIn(s.files, q)
      ensures v[q].dirty || Msg(v[q].wd, MovedIn) in inbox || WillMove(s.workers, v[q].pid, e)
    {
      var m := Msg(v[q].wd, MovedIn);
      if m in s.inbox && m != s.inbox[0] {
        InTail(m, s.inbox);
      }
    }
    if RootMsg(s.inbox) && s.inbox[0] != Msg(ROOT_WD, Create) {
      InTail(Msg(ROOT_WD, Create), s.inbox);
    }
  }

  lemma SteadyDropPipe(s: State, v: map<string, Watch>)
    requires Steady(s, v) && s.pipe != []
    requires forall q | q in v && v[q].wd == s.pipe[0] :: v[q].dirty
    ensures Steady(s.(pipe := s.pipe[1..]), v)
  {
    forall q | FilesIn(s.events, q) != {}
      ensures q in v && (v[q].dirty || v[q].wd in s.pipe[1..] || WillCheck(s.workers, v[q].pid))
    {
      if v[q].wd in s.pipe && v[q].wd != s.pipe[0] {
        InTail(v[q].wd, s.pipe);
      }
    }
  }

  lemma SteadyTask(s: State, v: map<string, Watch>, task: Task)
    requires Steady(s, v) && !s.task.Watching? && !task.Watching?
    requires forall q | q in s.queues && s.queues[q] !in s.kernel && q in Todo(s.task) :: q in Todo(task)
    ensures Steady(s.(task := task), v)
  {
  }

  lemma KernelWatchFinds(v: map<string, Watch>, queues: map<string, nat>, kernel: map<nat, nat>, task: Task, rootMsg: bool,
                         q: string, wd: nat, back: Task)
    requires WatchesAgree(v, queues, kernel) && DistinctDirs(queues, kernel) && !task.Watching? && !back.Watching?
    requires DirsFound(v, queues, kernel, task, rootMsg)
    requires q in queues && queues[q] !in kernel && forall p | p in queues && p in Todo(task) && p != q :: p in Todo(back)
    ensures WatchesAgree(v, queues, kernel[queues[q] := wd])
    ensures DirsFound(v, queues, kernel[queues[q] := wd], Watching(q, wd, back), rootMsg)
  {
    var kernel', task' := kernel[queues[q] := wd], Watching(q, wd, back);
    assert q !in v;
    forall p | p in queues && queues[p] in kernel' ensures p in v || BeingEntered(task', p, kernel'[queues[p]]) {
    }
  }

  lemma SteadyAddKernelWatch(s: State, v: map<string, Watch>, q: string, back: Task)
    requires Steady(s, v) && !s.task.Watching? && !back.Watching? && q in s.queues
    requires forall p | p in s.queues && p in Todo(s.task) && p != q :: p in Todo(back)
    ensures Steady(AddKernelWatch(s, q, back), v)
  {
    if s.queues[q] in s.kernel {
      SteadyTask(s, v, back);
    } else {
      KernelWatchFinds(v, s.queues, s.kernel, s.task, RootMsg(s.inbox), q, s.nextWd, back);
      KernelWatchDistinct(s.queues, s.kernel, s.queues[q], s.nextWd);
    }
  }

  lemma KernelWatchDistinct(queues: map<string, nat>, kernel: map<nat, nat>, ino: nat, limit: nat)
    requires DistinctDirs(queues, kernel) && KernelBelow(kernel, limit)
    ensures DistinctDirs(queues, kernel[ino := limit]) && KernelBelow(kernel[ino := limit], limit + 1)
  {
  }

  lemma EnterWatchFinds(v: map<string, Watch>, w: Watch, queues: map<string, nat>, kernel: map<nat, nat>, task: Task, rootMsg: bool)
    requires task.Watching? && WatchesAgree(v, queues, kernel) && DirsFound(v, queues, kernel, task, rootMsg)
    requires w.name == task.queue && w.kind.QueueDir? && w.name in queues && w.ino == queues[w.name] && w.wd == task.wd
    ensures WatchesAgree(v[w.name := w], queues, kernel)
    ensures DirsFound(v[w.name := w], queues, kernel, task.back, rootMsg)
  {
  }

  lemma SteadyEnterWatch(s: State, v: map<string, Watch>, w: Watch)
    requires Steady(s, v) && s.task.Watching? && s.task.queue in s.queues
    requires w.name == s.task.queue && w.kind.QueueDir? && w.ino == s.queues[w.name] && w.wd == s.task.wd && w.pid == 0
    requires w.dirty <==> FilesIn(s.files, w.name) != {}
    ensures Steady(s.(task := s.task.back), v[w.name := w])
  {
    EnterWatchFinds(v, w, s.queues, s.kernel, s.task, RootMsg(s.inbox));
    EnterWatchCovers(v, w, s.files, s.events, s.inbox, s.pipe, s.workers);
  }

  lemma EnterWatchCovers(v: map<string, Watch>, w: Watch, files: map<string, set<string>>, events: map<string, set<string>>,
                         inbox: seq<Msg>, pipe: seq<nat>, workers: map<nat, Worker>)
    requires w.name !in v && w.pid == 0 && (w.dirty <==> FilesIn(files, w.name) != {})
    requires CrewAgrees(v, workers) && FilesCovered(v, files, inbox, workers) && EventsCovered(v, events, pipe, workers)
    ensures CrewAgrees(v[w.name := w], workers)
    ensures FilesCovered(v[w.name := w], files, inbox, workers)
    ensures EventsCovered(v[w.name := w], events, pipe, workers)
  {
  }

  function ReapedView(v: map<string, Watch>, pid: nat): map<string, Watch> {
    map q | q in v :: Reaped(v[q], pid)
  }

  lemma CrewReaped(v: map<string, Watch>, workers: map<nat, Worker>, pid: nat)
    requires CrewAgrees(v, workers)
    ensures CrewAgrees(ReapedView(v, pid), workers - {pid})
  {
  }

  lemma FilesReaped(v: map<string, Watch>, files: map<string, set<string>>, inbox: seq<Msg>, workers: map<nat, Worker>, pid: nat)
    requires FilesCovered(v, files, inbox, workers) && pid in workers && workers[pid].pc.Exited?
    ensures FilesCovered(ReapedView(v, pid), files, inbox, workers - {pid})
  {
    var v', workers' := ReapedView(v, pid), workers - {pid};
    forall q, e | q in v' && e in FilesIn(files, q)
      ensures v'[q].dirty || Msg(v'[q].wd, MovedIn) in inbox || WillMove(workers', v'[q].pid, e)
    {
      assert v[q].dirty || Msg(v[q].wd, MovedIn) in inbox || WillMove(workers, v[q].pid, e);
    }
  }

  lemma EventsReaped(v: map<string, Watch>, events: map<string, set<string>>, pipe: seq<nat>, workers: map<nat, Worker>, pid: nat)
    requires EventsCovered(v, events, pipe, workers) && pid in workers && workers[pid].pc.Exited?
    ensures EventsCovered(ReapedView(v, pid), events, pipe, workers - {pid})
  {
  }

  lemma SteadyReap(s: State, v: map<string, Watch>, pid: nat)
    requires Steady(s, v) && At(s, pid, Exited)
    ensures Steady(s.(workers := s.workers - {pid}), ReapedView(v, pid))
  {
    IdsKeep(v, ReapedView(v, pid), s.queues, s.kernel, s.task, RootMsg(s.inbox));
    CrewReaped(v, s.workers, pid);
    FilesReaped(v, s.files, s.inbox, s.workers, pid);
    EventsReaped(v, s.events, s.pipe, s.workers, pid);
  }

  lemma CrewStarted(v: map<string, Watch>, workers: map<nat, Worker>, q: string, pid: nat)
    requires CrewAgrees(v, workers) && q in v && v[q].pid == 0 && pid != 0 && pid !in workers
    ensures CrewAgrees(v[q := v[q].(dirty := false, pid := pid)], workers[pid := Worker(v[q].wd, q, Starting)])
  {
  }

  lemma FilesStarted(v: map<string, Watch>, files: map<string, set<string>>, inbox: seq<Msg>, workers: map<nat, Worker>, q: string, pid: nat)
    requires FilesCovered(v, files, inbox, workers) && q in v && pid !in workers
    ensures FilesCovered(v[q := v[q].(dirty := false, pid := pid)], files, inbox, workers[pid := Worker(v[q].wd, q, Starting)])
  {
    var v', workers' := v[q := v[q].(dirty := false, pid := pid)], workers[pid := Worker(v[q].wd, q, Starting)];
    forall p, e | p in v' && e in FilesIn(files, p)
      ensures v'[p].dirty || Msg(v'[p].wd, MovedIn) in inbox || WillMove(workers', v'[p].pid, e)
    {
      assert v[p].dirty || Msg(v[p].wd, MovedIn) in inbox || WillMove(workers, v[p].pid, e);
    }
  }

  lemma EventsStarted(v: map<string, Watch>, events: map<string, set<string>>, pipe: seq<nat>, workers: map<nat, Worker>, q: string, pid: nat)
    requires EventsCovered(v, events, pipe, workers) && q in v && pid !in workers
    ensures EventsCovered(v[q := v[q].(dirty := false, pid := pid)], events, pipe, workers[pid := Worker(v[q].wd, q, Starting)])
  {
  }

  lemma SteadyStart(s: State, v: map<string, Watch>, q: string, pid: nat)
    requires Steady(s, v) && q in v && v[q].pid == 0 && pid != 0 && pid !in s.workers
    ensures Steady(s.(workers := s.workers[pid := Worker(v[q].wd, q, Starting)]), v[q := v[q].(dirty := false, pid := pid)])
  {
    IdsKeep(v, v[q := v[q].(dirty := false, pid := pid)], s.queues, s.kernel, s.task, RootMsg(s.inbox));
    CrewStarted(v, s.workers, q, pid);
    FilesStarted(v, s.files, s.inbox, s.workers, q, pid);
    EventsStarted(v, s.events, s.pipe, s.workers, q, pid);
  }

  // ----- the watch list and its view by name -----

  /** There is one watch per queue and per descriptor. */
  ghost predicate Tidy(ws: seq<Watch>) {
    && Shaped(ws)
    && (forall i, j | 0 <= i < j < |ws| - 2 :: ws[i].name != ws[j].name)
    && (forall i, j | 0 <= i < j < |ws| :: ws[i].wd != ws[j].wd)
  }

  lemma SameListTidy(ws: seq<Watch>, ws': seq<Watch>)
    requires Tidy(ws) && SameList(ws, ws')
    ensures Tidy(ws')
  {
  }

  lemma {:induction false} ByNameHas(ws: seq<Watch>, q: string)
    ensures q in ByName(ws) <==> First(ws, IsQueueNamed(q)) < |ws|
    ensures q in ByName(ws) ==> ByName(ws)[q] == ws[First(ws, IsQueueNamed(q))]
    decreases |ws|
  {
    if ws != [] {
      ByNameHas(ws[1..], q);
    }
  }

  /** Every queue watch of a tidy list is the one its name leads to. */
  lemma ByNameAt(ws: seq<Watch>, i: nat)
    requires Tidy(ws) && i < |ws| - 2
    ensures ws[i].name in ByName(ws) && ByName(ws)[ws[i].name] == ws[i]
  {
    var q := ws[i].name;
    var f := First(ws, IsQueueNamed(q));
    assert IsQueueNamed(q)(ws[i]);
    assert f <= i;
    ByNameHas(ws, q);
  }

  lemma {:induction false} ByNameUpdate(ws: seq<Watch>, i: nat, w: Watch)
    requires i < |ws| && ws[i].kind.QueueDir? && w.kind.QueueDir? && w.name == ws[i].name
    requires forall j | 0 <= j < i && ws[j].kind.QueueDir? :: ws[j].name != w.name
    ensures ByName(ws[i := w]) == ByName(ws)[w.name := w]
    decreases i
  {
    if i == 0 {
      assert ws[0 := w][1..] == ws[1..];
    } else {
      assert ws[i := w][1..] == ws[1..][i - 1 := w];
      ByNameUpdate(ws[1..], i - 1, w);
    }
  }

  lemma {:induction false} ByNameReaped(ws: seq<Watch>, pid: nat)
    ensures ByName(ReapedAll(ws, pid)) == ReapedView(ByName(ws), pid)
    decreases |ws|
  {
    if ws != [] {
      assert ReapedAll(ws, pid)[1..] == ReapedAll(ws[1..], pid);
      ByNameReaped(ws[1..], pid);
    }
  }

  lemma {:induction false} ByNamePaused(ws: seq<Watch>, names: set<string>)
    ensures ByName(PausedAll(ws, names)) == PausedView(ByName(ws), names)
    decreases |ws|
  {
    if ws != [] {
      assert PausedAll(ws, names)[1..] == PausedAll(ws[1..], names);
      ByNamePaused(ws[1..], names);
    }
  }

  // ----- every step keeps the invariant -----

  ghost predicate Sound(s: State) {
    Tidy(s.mem.watches) && Steady(s, ByName(s.mem.watches))
  }

  lemma SteadyMem(s: State, v: map<string, Watch>, m: Memory)
    requires Steady(s, v)
    ensures Steady(s.(mem := m), v)
  {
  }

  /** Marking watch i dirty, in the list and in the view. */
  lemma SoundMark(s: State, i: nat)
    requires Sound(s) && i < |s.mem.watches| - 2
    ensures Tidy(MarkDirty(s.mem, i).watches)
    ensures Steady(s, ByName(MarkDirty(s.mem, i).watches))
    ensures MarkDirty(s.mem, i).watches[i].dirty
  {
    var ws := s.mem.watches;
    ByNameAt(ws, i);
    if !ws[i].dirty {
      ByNameUpdate(ws, i, ws[i].(dirty := true));
      SteadyMark(s, ByName(ws), ws[i].name);
      UpdateTidy(ws, i, true, ws[i].pid);
    }
  }

  /** In a tidy list a descriptor leads to one watch. */
  lemma FirstByWd(ws: seq<Watch>, wd: nat, i: nat)
    requires Tidy(ws) && i < |ws| && ws[i].wd == wd
    ensures First(ws, IsWd(wd)) == i
  {
    assert IsWd(wd)(ws[i]);
    assert First(ws, IsWd(wd)) <= i;
  }

  lemma OneByWd(ws: seq<Watch>, wd: nat, i: nat)
    requires Tidy(ws) && i < |ws| && ws[i].wd == wd
    ensures forall q | q in ByName(ws) && ByName(ws)[q].wd == wd :: ByName(ws)[q] == ws[i]
  {
    forall q | q in ByName(ws) && ByName(ws)[q].wd == wd ensures ByName(ws)[q] == ws[i] {
      ByNameHas(ws, q);
      var f := First(ws, IsQueueNamed(q));
      assert ws[f].wd == ws[i].wd;
    }
  }

  lemma NoneByWd(ws: seq<Watch>, wd: nat)
    requires forall i | 0 <= i < |ws| && ws[i].kind.QueueDir? :: ws[i].wd != wd
    ensures forall q | q in ByName(ws) :: ByName(ws)[q].wd != wd
  {
    forall q | q in ByName(ws) ensures ByName(ws)[q].wd != wd {
      ByNameHas(ws, q);
    }
  }

  ghost predicate DirtyByWd(v: map<string, Watch>, wd: nat) {
    forall q | q in v && v[q].wd == wd :: v[q].dirty
  }

  lemma PipeMarks(s: State)
    requires Sound(s) && s.pipe != []
    ensures var ws := OnPipe(s.mem, s.pipe[0]).watches;
            Tidy(ws) && Steady(s, ByName(ws)) && DirtyByWd(ByName(ws), s.pipe[0])
  {
    var ws, wd := s.mem.watches, s.pipe[0];
    var i := First(ws, IsQueueWd(wd));
    if i < |ws| {
      SoundMark(s, i);
      OneByWd(OnPipe(s.mem, wd).watches, wd, i);
    } else {
      NoneByWd(ws, wd);
    }
  }

  lemma SoundReadPipe(s: State)
    requires Sound(s) && s.pipe != []
    ensures Sound(s.(mem := OnPipe(s.mem, s.pipe[0]), pipe := s.pipe[1..]))
  {
    var m := OnPipe(s.mem, s.pipe[0]);
    PipeMarks(s);
    SteadyDropPipe(s, ByName(m.watches));
    SteadyMem(s.(pipe := s.pipe[1..]), ByName(m.watches), m);
  }

  lemma SoundDeliver(s: State)
    requires Sound(s) && s.task.Delivering? && s.task.queue in s.queues
    ensures Sound(Deliver(s))
  {
    var q := s.task.queue;
    var t, m := AddFile(s, q, s.task.event).(task := Idle), OnTimerMove(s.mem, q);
    SteadyAddFile(s, ByName(s.mem.watches), q, s.task.event);
    SteadyTask(AddFile(s, q, s.task.event), ByName(s.mem.watches), Idle);
    var i := First(s.mem.watches, IsQueueNamed(q));
    if i < |s.mem.watches| {
      SoundMark(t, i);
    }
    SteadyMem(t, ByName(m.watches), m);
  }

  /** A message for a queue marks it; any other message leaves the view or repauses it. */
  lemma MessageMarks(s: State)
    requires Sound(s) && s.inbox != []
    ensures var msg := s.inbox[0];
            var ws := OnInotify(s.mem, msg.wd, msg.mask, s.pauses).watches;
            Tidy(ws) && Steady(s, ByName(ws)) && DirtyByWd(ByName(ws), msg.wd)
  {
    var msg, ws := s.inbox[0], s.mem.watches;
    assert msg in s.inbox;
    var i := First(ws, IsWd(msg.wd));
    if i < |ws| - 2 {
      assert OnInotify(s.mem, msg.wd, msg.mask, s.pauses) == MarkDirty(s.mem, i);
      SoundMark(s, i);
      OneByWd(MarkDirty(s.mem, i).watches, msg.wd, i);
    } else {
      NoneByWd(ws, msg.wd);
      if i == |ws| - 1 {
        assert OnInotify(s.mem, msg.wd, msg.mask, s.pauses) == ApplyPause(s.mem, s.pauses);
        SoundRepaused(s);
      } else {
        assert OnInotify(s.mem, msg.wd, msg.mask, s.pauses) == s.mem;
      }
    }
  }

  lemma SoundRepaused(s: State)
    requires Sound(s)
    ensures var ws := ApplyPause(s.mem, s.pauses).watches; Tidy(ws) && Steady(s, ByName(ws))
    ensures forall wd | DirtyByWd(ByName(s.mem.watches), wd) :: DirtyByWd(ByName(ApplyPause(s.mem, s.pauses).watches), wd)
  {
    var ws := s.mem.watches;
    ByNamePaused(ws, s.pauses);
    SteadyRepaused(s, ByName(ws), s.pauses);
    SameListTidy(ws, PausedAll(ws, s.pauses));
  }

  lemma SoundTakeMessage(s: State)
    requires Sound(s) && s.task == Idle && s.inbox != []
    ensures Sound(TakeMessage(s))
  {
    var t := TakeMessage(s);
    var v := ByName(t.mem.watches);
    MessageMarks(s);
    SteadyTask(s, v, t.task);
    FirstByWd(s.mem.watches, ROOT_WD, |s.mem.watches| - 2);
    SteadyDropMessage(s.(task := t.task), v);
    SteadyMem(s.(task := t.task, inbox := s.inbox[1..]), v, t.mem);
  }

  lemma ShapedEnter(ws: seq<Watch>, w: Watch)
    requires Shaped(ws) && w.kind.QueueDir? && w.wd >= FIRST_QUEUE_WD && w.ino >= FIRST_QUEUE_INO
    ensures Shaped([w] + ws)
  {
  }

  lemma TidyEnter(ws: seq<Watch>, w: Watch)
    requires Tidy(ws) && Shaped([w] + ws)
    requires forall i | 0 <= i < |ws| :: ws[i].wd != w.wd && (ws[i].kind.QueueDir? ==> ws[i].name != w.name)
    ensures Tidy([w] + ws)
  {
    var out := [w] + ws;
    forall i, j | 0 <= i < j < |out| ensures out[i].wd != out[j].wd && (j < |out| - 2 ==> out[i].name != out[j].name) {
      assert out[j] == ws[j - 1];
      if i > 0 {
        assert out[i] == ws[i - 1];
      }
    }
  }

  lemma ByNameEnter(ws: seq<Watch>, w: Watch)
    requires w.kind.QueueDir?
    ensures ByName([w] + ws) == ByName(ws)[w.name := w]
  {
    assert ([w] + ws)[1..] == ws;
  }

  lemma NotNamed(ws: seq<Watch>, q: string)
    requires q !in ByName(ws)
    ensures forall i | 0 <= i < |ws| && ws[i].kind.QueueDir? :: ws[i].name != q
  {
    ByNameHas(ws, q);
    forall i | 0 <= i < |ws| && ws[i].kind.QueueDir? ensures ws[i].name != q {
      assert !IsQueueNamed(q)(ws[i]);
    }
  }

  lemma SoundEnterWatch(s: State)
    requires Sound(s) && Safe(s) && Grounded(s) && s.task.Watching? && s.task.queue in s.queues
    ensures Sound(EnterWatch(s))
  {
    var t := EnterWatch(s);
    var ws, w := s.mem.watches, t.mem.watches[0];
    assert t.mem.watches == [w] + ws;
    NotNamed(ws, w.name);
    ShapedEnter(ws, w);
    TidyEnter(ws, w);
    ByNameEnter(ws, w);
    SteadyEnterWatch(s, ByName(ws), w);
    SteadyMem(s.(task := t.task), ByName(ws)[w.name := w], t.mem);
  }

  lemma ReapTidy(ws: seq<Watch>, pid: nat)
    requires Tidy(ws)
    ensures Tidy(ReapedAll(ws, pid))
  {
    SameListTidy(ws, ReapedAll(ws, pid));
  }

  lemma UpdateTidy(ws: seq<Watch>, i: nat, dirty: bool, pid: nat)
    requires Tidy(ws) && i < |ws|
    ensures Tidy(ws[i := ws[i].(dirty := dirty, pid := pid)])
  {
    SameListTidy(ws, ws[i := ws[i].(dirty := dirty, pid := pid)]);
  }

  lemma SoundReap(s: State, pid: nat)
    requires Sound(s) && At(s, pid, Exited)
    ensures Sound(s.(mem := Reap(s.mem, pid), workers := s.workers - {pid}))
  {
    var m := Reap(s.mem, pid);
    ByNameReaped(s.mem.watches, pid);
    SteadyReap(s, ByName(s.mem.watches), pid);
    ReapTidy(s.mem.watches, pid);
    SteadyMem(s.(workers := s.workers - {pid}), ByName(m.watches), m);
  }

  lemma SoundStart(s: State, i: nat, pid: nat)
    requires Sound(s) && i < |s.mem.watches| && Eligible(s.mem.watches[i]) && pid != 0 && pid !in s.workers
    ensures Sound(StartWorker(s, i, pid))
  {
    var t := StartWorker(s, i, pid);
    var ws, w := s.mem.watches, s.mem.watches[i];
    ByNameAt(ws, i);
    ByNameUpdate(ws, i, w.(dirty := false, pid := pid));
    SteadyStart(s, ByName(ws), w.name, pid);
    UpdateTidy(ws, i, false, pid);
    SteadyMem(s.(workers := t.workers), ByName(t.mem.watches), t.mem);
  }

  lemma SoundEnterLoop(s: State)
    requires Sound(s)
    ensures Sound(s.(mem := ApplyPause(s.mem, s.pauses), booting := false))
  {
    var m := ApplyPause(s.mem, s.pauses);
    SoundRepaused(s);
    SteadyMem(s.(booting := false), ByName(m.watches), m);
  }

  /** A queue directory is removed while inotify watches it. */
  predicate RemovesWatched(s: State, step: Step) {
    step.Outside? && step.change.RemoveQueue? && step.change.queue in s.queues && s.queues[step.change.queue] in s.kernel
  }

  lemma SoundChange(s: State, change: Change)
    requires Sound(s) && CanChange(s, change) && !RemovesWatched(s, Outside(change))
    ensures Sound(Changed(s, change))
  {
    var v := ByName(s.mem.watches);
    match change
    case MakeQueue(q, ino) => SteadyMakeDir(s, v, q, ino);
    case RemoveQueue(q) => SteadyRemoveDir(s, v, q);
    case Publish(q, e) => SteadyAddFile(s, v, q, e);
    case SetPause(n) => SteadyPost(s, v, s.pauses + {n}, Msg(PAUSE_WD, Create));
    case ClearPause(n) => SteadyPost(s, v, s.pauses - {n}, Msg(PAUSE_WD, Delete));
  }

  lemma SteadyMoving(s: State, v: map<string, Watch>, pid: nat, act: Act)
    requires Steady(s, v) && CanAct(s, pid, act) && (act.Open? || act.Move? || act.EndMove?)
    ensures Steady(Acted(s, pid, act), v)
  {
    match act
    case Open => SteadyWithPc(s, v, pid, Moving(s.queues[s.workers[pid].queue], FilesIn(s.files, s.workers[pid].queue)));
    case Move(e) => SteadyMoveFile(s, v, pid, e);
    case EndMove => SteadyWithPc(s, v, pid, Moved);
  }

  lemma SteadyChecking(s: State, v: map<string, Watch>, pid: nat, busy: Pc)
    requires Steady(s, v) && (At(s, pid, Moved) || At(s, pid, Handled)) && (busy == Handling || busy == Signalling)
    ensures Steady(CheckEvents(s, pid, busy), v)
  {
    SteadyWithPc(s, v, pid, if FilesIn(s.events, s.workers[pid].queue) == {} then Exited else busy);
  }

  /** Workers give up only when their directory is gone. */
  lemma NoneGivesUp(s: State, v: map<string, Watch>, pid: nat)
    requires Steady(s, v)
    ensures !CanAct(s, pid, GiveUp)
  {
    if pid in s.workers {
      assert s.workers[pid].queue in v;
    }
  }

  lemma SteadyAct(s: State, v: map<string, Watch>, pid: nat, act: Act)
    requires Steady(s, v) && CanAct(s, pid, act)
    ensures Steady(Acted(s, pid, act), v)
  {
    match act
    case Open => SteadyMoving(s, v, pid, act);
    case Move(_) => SteadyMoving(s, v, pid, act);
    case EndMove => SteadyMoving(s, v, pid, act);
    case GiveUp => NoneGivesUp(s, v, pid);
    case Check => SteadyChecking(s, v, pid, Handling);
    case Handle(left) => SteadyHandle(s, v, pid, left);
    case HandlerDone => SteadyWithPc(s, v, pid, Handled);
    case Recheck => SteadyChecking(s, v, pid, Signalling);
    case Signal => SteadySignal(s, v, pid);
  }

  lemma SoundAct(s: State, pid: nat, act: Act)
    requires Sound(s) && CanAct(s, pid, act)
    ensures Sound(Acted(s, pid, act))
  {
    ActKeepsMemory(s, pid, act);
    SteadyAct(s, ByName(s.mem.watches), pid, act);
  }

  lemma SoundScan(s: State, call: Call)
    requires Sound(s) && Safe(s) && Grounded(s) && CanCall(s, call) && (call.ScanOne? || call.ScanCheck? || call.ScanEnd?)
    ensures Sound(Called(s, call))
  {
    match call
    case ScanOne(q) => SteadyAddKernelWatch(s, ByName(s.mem.watches), q, Scanning(s.task.todo - {q}));
    case ScanCheck => SoundEnterWatch(s);
    case ScanEnd => SteadyTask(s, ByName(s.mem.watches), Idle);
  }

  lemma SoundTimerMkdir(s: State, q: string, e: string, ino: nat)
    requires Sound(s) && s.task == Idle && (q in s.queues || FreshIno(s, ino))
    ensures Sound(EnsureDir(s, q, e, ino))
  {
    var v := ByName(s.mem.watches);
    if q !in s.queues {
      SteadyMakeDir(s, v, q, ino);
      SteadyTask(MakeDir(s, q, ino), v, Ensuring(q, e));
    } else {
      SteadyTask(s, v, Ensuring(q, e));
    }
  }

  lemma SoundTimerWatch(s: State)
    requires Sound(s) && CanCall(s, TimerWatch)
    ensures Sound(EnsureQueueWatch(s))
  {
    var v, back := ByName(s.mem.watches), Delivering(s.task.queue, s.task.event);
    if Named(s.mem.watches, s.task.queue) {
      SteadyTask(s, v, back);
    } else {
      SteadyAddKernelWatch(s, v, s.task.queue, back);
    }
  }

  lemma SoundTimer(s: State, call: Call)
    requires Sound(s) && CanCall(s, call) && (call.TimerMkdir? || call.TimerWatch? || call.TimerRename? || call.TimerGone?)
    ensures Sound(Called(s, call))
  {
    match call
    case TimerMkdir(q, e, ino) => SoundTimerMkdir(s, q, e, ino);
    case TimerWatch => SoundTimerWatch(s);
    case TimerRename => SoundDeliver(s);
    case TimerGone => SteadyTask(s, ByName(s.mem.watches), Idle);
  }

  lemma SoundLoop(s: State, call: Call)
    requires Sound(s) && CanCall(s, call)
    requires call.ReadInotify? || call.EnterLoop? || call.ReadPipe? || call.ReapWorker? || call.SpawnWorker?
    ensures Sound(Called(s, call))
  {
    match call
    case ReadInotify => SoundTakeMessage(s);
    case EnterLoop => SoundEnterLoop(s);
    case ReadPipe => SoundReadPipe(s);
    case ReapWorker(pid) => SoundReap(s, pid);
    case SpawnWorker(i, pid) => SoundStart(s, i, pid);
  }

  lemma SoundStep(s: State, step: Step)
    requires Sound(s) && Safe(s) && Grounded(s) && Enabled(s, step) && !RemovesWatched(s, step)
    ensures Sound(Apply(s, step))
  {
    match step
    case Outside(change) => SoundChange(s, change);
    case Work(pid, act) => SoundAct(s, pid, act);
    case Do(call) =>
      if call.ScanOne? || call.ScanCheck? || call.ScanEnd? {
        SoundScan(s, call);
      } else if call.TimerMkdir? || call.TimerWatch? || call.TimerRename? || call.TimerGone? {
        SoundTimer(s, call);
      } else {
        SoundLoop(s, call);
      }
  }

  /** No step of the run removes a queue directory that inotify watches. */
  ghost predicate KeepsWatched(s: State, steps: seq<Step>)
    requires CanRun(s, steps)
    decreases |steps|
  {
    steps == [] || (!RemovesWatched(s, steps[0]) && KeepsWatched(Apply(s, steps[0]), steps[1..]))
  }

  /** No watch is dropped then, so the counter stays exact. */
  lemma SoundForgetsNone(s: State, step: Step)
    requires Sound(s)
    ensures !Forgets(s, step)
  {
    if s.inbox != [] {
      assert s.inbox[0] in s.inbox;
    }
  }

  lemma {:induction false} SoundRun(s: State, steps: seq<Step>)
    requires Sound(s) && Safe(s) && Linked(s) && CanRun(s, steps) && KeepsWatched(s, steps)
    ensures Sound(Run(s, steps)) && Safe(Run(s, steps)) && Linked(Run(s, steps)) && Forgotten(s, steps) == 0
    decreases |steps|
  {
    if steps != [] {
      SoundStep(s, steps[0]);
      SafeStep(s, steps[0]);
      LinkedStep(s, steps[0]);
      SoundForgetsNone(s, steps[0]);
      SoundRun(Apply(s, steps[0]), steps[1..]);
    }
  }

  lemma InitSound(s: State)
    requires Init(s)
    ensures Sound(s) && Safe(s) && Linked(s)
  {
    InitSafe(s);
    InitLinked(s);
    forall q ensures q !in ByName(s.mem.watches) {
      ByNameHas(s.mem.watches, q);
    }
  }

  /** Why event file e of queue q will still be handed to a worker. */
  ghost predicate Accounted(s: State, q: string, e: string) {
    var i := First(s.mem.watches, IsQueueNamed(q));
    if i < |s.mem.watches| then
      var w := s.mem.watches[i];
      w.dirty || Msg(w.wd, MovedIn) in s.inbox || WillMove(s.workers, w.pid, e)
    else
      (s.task.Watching? && s.task.queue == q) || q in Todo(s.task) || Msg(ROOT_WD, Create) in s.inbox
  }

  /** Why the events that q's handler has left will be looked at again. */
  ghost predicate Revisited(s: State, q: string) {
    var i := First(s.mem.watches, IsQueueNamed(q));
    i < |s.mem.watches| &&
    var w := s.mem.watches[i];
    w.dirty || w.wd in s.pipe || WillCheck(s.workers, w.pid)
  }

  lemma SoundAccounts(s: State, q: string)
    requires Sound(s)
    ensures q in s.queues ==> forall e | e in FilesIn(s.files, q) :: Accounted(s, q, e)
    ensures FilesIn(s.events, q) != {} ==> Revisited(s, q)
  {
    ByNameHas(s.mem.watches, q);
  }

  ghost predicate OneWorkerPerQueue(s: State) {
    forall p, p' | p in s.workers && p' in s.workers && s.workers[p].queue == s.workers[p'].queue :: p == p'
  }

  lemma SoundIsOneWorker(s: State)
    requires Sound(s)
    ensures OneWorkerPerQueue(s)
  {
  }

  /** No lost event, one worker per queue and an exact counter, in every run in which no
      watched queue directory is removed. */
  lemma NoLostEvent(s: State, steps: seq<Step>)
    requires Init(s) && CanRun(s, steps) && KeepsWatched(s, steps)
    ensures var t := Run(s, steps);
            && (forall q, e | q in t.queues && e in FilesIn(t.files, q) :: Accounted(t, q, e))
            && (forall q | FilesIn(t.events, q) != {} :: Revisited(t, q))
            && OneWorkerPerQueue(t)
            && t.mem.dirtyQueues == DirtyCount(t.mem.watches)
  {
    InitSound(s);
    SoundRun(s, steps);
    EveryRunIsSafe(s, steps);
    var t := Run(s, steps);
    SoundIsOneWorker(t);
    forall q ensures q in t.queues ==> forall e | e in FilesIn(t.files, q) :: Accounted(t, q, e)
             ensures FilesIn(t.events, q) != {} ==> Revisited(t, q)
    {
      SoundAccounts(t, q);
    }
  }

  /** Nothing is pending: no message, no worker, no dirty queue. */
  ghost predicate Quiet(s: State) {
    && s.task == Idle && s.inbox == [] && s.pipe == [] && s.workers == map[]
    && forall i | 0 <= i < |s.mem.watches| :: !DirtyQueue(s.mem.watches[i])
  }

  lemma QuietIsDone(s: State, q: string)
    requires Sound(s) && Quiet(s)
    ensures (q in s.queues ==> FilesIn(s.files, q) == {}) && FilesIn(s.events, q) == {}
  {
    SoundAccounts(s, q);
  }

  /** When such a run has gone quiet, every queue directory and every handler's directory is empty. */
  lemma QuietMeansDone(s: State, steps: seq<Step>, q: string)
    requires Init(s) && CanRun(s, steps) && KeepsWatched(s, steps) && Quiet(Run(s, steps))
    ensures var t := Run(s, steps); (q in t.queues ==> FilesIn(t.files, q) == {}) && FilesIn(t.events, q) == {}
  {
    InitSound(s);
    SoundRun(s, steps);
    QuietIsDone(Run(s, steps), q);
  }
}

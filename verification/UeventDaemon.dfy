/** The memory of the ueventd queue daemon (features/runtime/src/ueventd/ueventd.c):
    the watch list, the dirty_queues counter and the flags its handlers update.

    Each handler is a method of class Daemon, proved equal to a function on
    Memory; the protocol in UeventProtocol steps with those functions. */
module UeventDaemon {
  datatype Kind = RootDir | QueueDir | PauseDir | TimerRoot | TimerDir

  /** struct watch; pid 0 means that no worker is unreaped. */
  datatype Watch = Watch(name: string, kind: Kind, wd: nat, ino: nat, dirty: bool, paused: bool, pid: nat)

  datatype Memory = Memory(watches: seq<Watch>, dirtyQueues: int, pauseAll: bool, timerChanged: bool)

  predicate DirtyQueue(w: Watch) {
    w.kind.QueueDir? && w.dirty
  }

  function DirtyCount(ws: seq<Watch>): nat {
    if ws == [] then 0 else (if DirtyQueue(ws[0]) then 1 else 0) + DirtyCount(ws[1..])
  }

  /** How far dirty_queues exceeds the number of dirty queues. */
  function Surplus(m: Memory): int {
    m.dirtyQueues - DirtyCount(m.watches)
  }

  // ----- what the handlers compute -----

  /** The first watch that satisfies p, or |ws|. */
  function First(ws: seq<Watch>, p: Watch -> bool): (i: nat)
    ensures i <= |ws| && (i < |ws| ==> p(ws[i]))
    ensures forall j | 0 <= j < i :: !p(ws[j])
  {
    if ws == [] || p(ws[0]) then 0 else 1 + First(ws[1..], p)
  }

  /** mark_queue_dirty (lines 274-280). */
  function MarkDirty(m: Memory, i: nat): Memory
    requires i < |m.watches|
  {
    if m.watches[i].dirty then m
    else m.(watches := m.watches[i := m.watches[i].(dirty := true)], dirtyQueues := m.dirtyQueues + 1)
  }

  function IsQueueWd(wd: nat): Watch -> bool {
    (w: Watch) => w.kind.QueueDir? && w.wd == wd
  }

  function IsQueueNamed(name: string): Watch -> bool {
    (w: Watch) => w.kind.QueueDir? && w.name == name
  }

  function IsIno(ino: nat): Watch -> bool {
    (w: Watch) => w.ino == ino
  }

  function IsWd(wd: nat): Watch -> bool {
    (w: Watch) => w.wd == wd
  }

  /** process_pipefd_events for one message (lines 535-543). */
  function OnPipe(m: Memory, wd: nat): Memory {
    var i := First(m.watches, IsQueueWd(wd));
    if i < |m.watches| then MarkDirty(m, i) else m
  }

  /** move_timer_event after its rename (lines 328-330). */
  function OnTimerMove(m: Memory, name: string): Memory {
    var i := First(m.watches, IsQueueNamed(name));
    if i < |m.watches| then MarkDirty(m, i) else m
  }

  /** What inotify_add_watch and the look into the new directory answer (lines 99-134):
      the directory is watched already, or it now has descriptor wd. */
  datatype Answer = Watched | Added(wd: nat, ino: nat, nonEmpty: bool)

  /** ensure_queue_dir after its mkdirs (lines 305-307). */
  function EnsureWatch(m: Memory, name: string, answer: Answer): Memory {
    if First(m.watches, IsQueueNamed(name)) < |m.watches| || answer.Watched? then m
    else AddWatch(m, name, QueueDir, answer.wd, answer.ino, answer.nonEmpty)
  }

  /** move_timer_event for a name with an event in it (lines 319-331). */
  function MoveTimer(m: Memory, name: string, answer: Answer, renamed: bool): Memory {
    var m' := EnsureWatch(m, name, answer);
    if renamed then OnTimerMove(m', name) else m'
  }

  /** unwatch_path (lines 162-185): the counter keeps counting a dirty watch that goes away. */
  function Unwatch(m: Memory, ino: nat): Memory {
    var i := First(m.watches, IsIno(ino));
    if i < |m.watches| then m.(watches := m.watches[..i] + m.watches[i + 1..]) else m
  }

  function Reaped(w: Watch, pid: nat): Watch {
    if w.pid == pid then w.(pid := 0) else w
  }

  function ReapedAll(ws: seq<Watch>, pid: nat): (r: seq<Watch>)
    ensures |r| == |ws| && forall i | 0 <= i < |ws| :: r[i] == Reaped(ws[i], pid)
  {
    seq(|ws|, i requires 0 <= i < |ws| => Reaped(ws[i], pid))
  }

  /** process_signal_events for one reaped child (lines 410-413). */
  function Reap(m: Memory, pid: nat): Memory {
    m.(watches := ReapedAll(m.watches, pid))
  }

  /** What a pause directory asks for. */
  predicate PauseWanted(names: set<string>, queue: string) {
    ".all" in names || queue in names
  }

  function PausedBy(w: Watch, names: set<string>): Watch {
    w.(paused := w.kind.QueueDir? && PauseWanted(names, w.name))
  }

  function PausedAll(ws: seq<Watch>, names: set<string>): (r: seq<Watch>)
    ensures |r| == |ws| && forall i | 0 <= i < |ws| :: r[i] == PausedBy(ws[i], names)
  {
    seq(|ws|, i requires 0 <= i < |ws| => PausedBy(ws[i], names))
  }

  /** apply_pause (lines 195-226). */
  function ApplyPause(m: Memory, names: set<string>): Memory {
    m.(watches := PausedAll(m.watches, names), pauseAll := ".all" in names)
  }

  /** watch_path after the kernel has accepted the watch (lines 129-152). */
  function AddWatch(m: Memory, name: string, kind: Kind, wd: nat, ino: nat, nonEmpty: bool): Memory {
    var dirty := kind.QueueDir? && nonEmpty;
    Memory([Watch(name, kind, wd, ino, dirty, m.pauseAll, 0)] + m.watches,
           if dirty then m.dirtyQueues + 1 else m.dirtyQueues,
           m.pauseAll,
           m.timerChanged || (kind.TimerDir? && nonEmpty))
  }

  datatype Mask = Create | Delete | MovedIn | DeleteSelf

  /** process_inotify_events for one message (lines 466-503).  A message on the root
      directory also makes the daemon scan for new queues: see UeventProtocol. */
  function OnInotify(m: Memory, wd: nat, mask: Mask, names: set<string>): Memory {
    var i := First(m.watches, IsWd(wd));
    if i == |m.watches| then m
    else if mask == DeleteSelf then Unwatch(m, m.watches[i].ino)
    else match m.watches[i].kind
         case RootDir => m
         case TimerRoot => m.(timerChanged := true)
         case PauseDir => ApplyPause(m, names)
         case TimerDir => m.(timerChanged := true)
         case QueueDir => MarkDirty(m, i)
  }

  /** The main loop starts a worker for such a watch (line 724). */
  predicate Eligible(w: Watch) {
    DirtyQueue(w) && w.pid == 0 && !w.paused
  }

  /** Lines 730-733; pid is 0 when fork fails. */
  function Spawn(m: Memory, i: nat, pid: nat): Memory
    requires i < |m.watches|
  {
    m.(watches := m.watches[i := m.watches[i].(dirty := false, pid := pid)], dirtyQueues := m.dirtyQueues - 1)
  }

  /** The main loop's pass over the watch list from index i on; pids[j] is what fork returns for watch j. */
  function SpawnFrom(m: Memory, i: nat, pids: nat -> nat): Memory
    requires i <= |m.watches|
    decreases |m.watches| - i
  {
    if i == |m.watches| then m
    else SpawnFrom(if Eligible(m.watches[i]) then Spawn(m, i, pids(i)) else m, i + 1, pids)
  }

  // ----- the counter -----

  lemma {:induction false} DirtyCountUpdate(ws: seq<Watch>, i: nat, w: Watch)
    requires i < |ws|
    ensures DirtyCount(ws[i := w]) + (if DirtyQueue(ws[i]) then 1 else 0) == DirtyCount(ws) + (if DirtyQueue(w) then 1 else 0)
    decreases i
  {
    if i > 0 {
      assert ws[i := w][1..] == ws[1..][i - 1 := w];
      DirtyCountUpdate(ws[1..], i - 1, w);
    }
  }

  lemma {:induction false} DirtyCountDrop(ws: seq<Watch>, i: nat)
    requires i < |ws|
    ensures DirtyCount(ws[..i] + ws[i + 1..]) + (if DirtyQueue(ws[i]) then 1 else 0) == DirtyCount(ws)
    decreases i
  {
    if i == 0 {
      assert ws[..i] + ws[i + 1..] == ws[1..];
    } else {
      assert (ws[..i] + ws[i + 1..])[1..] == ws[1..][..i - 1] + ws[1..][i..];
      DirtyCountDrop(ws[1..], i - 1);
    }
  }

  lemma {:induction false} DirtyCountSame(ws: seq<Watch>, ws': seq<Watch>)
    requires |ws| == |ws'| && forall i | 0 <= i < |ws| :: DirtyQueue(ws[i]) == DirtyQueue(ws'[i])
    ensures DirtyCount(ws) == DirtyCount(ws')
    decreases |ws|
  {
    if ws != [] {
      DirtyCountSame(ws[1..], ws'[1..]);
    }
  }

  lemma {:induction false} DirtyCountPositive(ws: seq<Watch>, i: nat)
    requires i < |ws| && DirtyQueue(ws[i])
    ensures DirtyCount(ws) > 0
    decreases i
  {
    if i > 0 {
      DirtyCountPositive(ws[1..], i - 1);
    }
  }

  lemma MarkDirtySurplus(m: Memory, i: nat)
    requires i < |m.watches| && m.watches[i].kind.QueueDir?
    ensures Surplus(MarkDirty(m, i)) == Surplus(m)
  {
    DirtyCountUpdate(m.watches, i, m.watches[i].(dirty := true));
  }

  lemma SpawnSurplus(m: Memory, i: nat, pid: nat)
    requires i < |m.watches| && DirtyQueue(m.watches[i])
    ensures Surplus(Spawn(m, i, pid)) == Surplus(m)
  {
    DirtyCountUpdate(m.watches, i, m.watches[i].(dirty := false, pid := pid));
  }

  /** Dropping a dirty watch leaves the counter one too high for good. */
  lemma UnwatchSurplus(m: Memory, ino: nat)
    ensures var i := First(m.watches, IsIno(ino));
            Surplus(Unwatch(m, ino)) == Surplus(m) + if i < |m.watches| && DirtyQueue(m.watches[i]) then 1 else 0
  {
    var i := First(m.watches, IsIno(ino));
    if i < |m.watches| {
      DirtyCountDrop(m.watches, i);
    }
  }

  lemma PipeSurplus(m: Memory, wd: nat)
    ensures Surplus(OnPipe(m, wd)) == Surplus(m)
  {
    var i := First(m.watches, IsQueueWd(wd));
    if i < |m.watches| {
      MarkDirtySurplus(m, i);
    }
  }

  lemma TimerMoveSurplus(m: Memory, name: string)
    ensures Surplus(OnTimerMove(m, name)) == Surplus(m)
  {
    var i := First(m.watches, IsQueueNamed(name));
    if i < |m.watches| {
      MarkDirtySurplus(m, i);
    }
  }

  lemma ReapSurplus(m: Memory, pid: nat)
    ensures Surplus(Reap(m, pid)) == Surplus(m)
  {
    DirtyCountSame(m.watches, Reap(m, pid).watches);
  }

  lemma PauseSurplus(m: Memory, names: set<string>)
    ensures Surplus(ApplyPause(m, names)) == Surplus(m)
  {
    DirtyCountSame(m.watches, ApplyPause(m, names).watches);
  }

  lemma AddWatchSurplus(m: Memory, name: string, kind: Kind, wd: nat, ino: nat, nonEmpty: bool)
    ensures Surplus(AddWatch(m, name, kind, wd, ino, nonEmpty)) == Surplus(m)
  {
    assert AddWatch(m, name, kind, wd, ino, nonEmpty).watches[1..] == m.watches;
  }

  /** The watch that a DeleteSelf message for descriptor wd removes: the first one on the same inode. */
  function Dropped(ws: seq<Watch>, wd: nat): (k: nat)
    requires First(ws, IsWd(wd)) < |ws|
    ensures k < |ws| && ws[k].ino == ws[First(ws, IsWd(wd))].ino
  {
    var ino := ws[First(ws, IsWd(wd))].ino;
    assert IsIno(ino)(ws[First(ws, IsWd(wd))]);
    First(ws, IsIno(ino))
  }

  lemma InotifyDrops(m: Memory, wd: nat, names: set<string>)
    requires First(m.watches, IsWd(wd)) < |m.watches|
    ensures var k := Dropped(m.watches, wd);
            OnInotify(m, wd, DeleteSelf, names) == m.(watches := m.watches[..k] + m.watches[k + 1..])
  {
  }

  /** The message removes a dirty queue watch from the list. */
  predicate DropsDirty(ws: seq<Watch>, wd: nat, mask: Mask) {
    mask == DeleteSelf && First(ws, IsWd(wd)) < |ws| && DirtyQueue(ws[Dropped(ws, wd)])
  }

  /** No message makes the counter fall behind the dirty queues; it moves ahead, by
      one, exactly when a dirty watch is dropped. */
  lemma InotifySurplus(m: Memory, wd: nat, mask: Mask, names: set<string>)
    ensures Surplus(OnInotify(m, wd, mask, names)) == Surplus(m) + if DropsDirty(m.watches, wd, mask) then 1 else 0
  {
    var i := First(m.watches, IsWd(wd));
    if i < |m.watches| {
      if mask == DeleteSelf {
        InotifyDrops(m, wd, names);
        DirtyCountDrop(m.watches, Dropped(m.watches, wd));
      } else if m.watches[i].kind.QueueDir? {
        MarkDirtySurplus(m, i);
      } else {
        PauseSurplus(m, names);
      }
    }
  }

  // ----- the spawn pass -----

  lemma {:induction false} SpawnFromExact(m: Memory, i: nat, pids: nat -> nat)
    requires i <= |m.watches|
    ensures var ws := SpawnFrom(m, i, pids).watches;
            && |ws| == |m.watches|
            && forall j | 0 <= j < |ws| :: ws[j] ==
                 if i <= j && Eligible(m.watches[j]) then m.watches[j].(dirty := false, pid := pids(j)) else m.watches[j]
    decreases |m.watches| - i
  {
    if i < |m.watches| {
      var m' := if Eligible(m.watches[i]) then Spawn(m, i, pids(i)) else m;
      SpawnFromExact(m', i + 1, pids);
    }
  }

  /** After the pass every queue that is still dirty is paused or has a worker, no
      matter which forks failed, and no paused queue got a worker. */
  lemma SpawnPassServes(m: Memory, pids: nat -> nat, j: nat)
    requires j < |m.watches|
    ensures |SpawnFrom(m, 0, pids).watches| == |m.watches|
    ensures var w, w' := m.watches[j], SpawnFrom(m, 0, pids).watches[j];
            && (DirtyQueue(w') ==> w'.paused || w'.pid != 0)
            && (w.paused || w.pid != 0 ==> w' == w)
            && (DirtyQueue(w) && !DirtyQueue(w') ==> w'.pid == pids(j))
  {
    SpawnFromExact(m, 0, pids);
  }

  // ----- moving a timer event -----

  /** find_queue_watch finds name, and the watch is dirty. */
  predicate Waits(m: Memory, name: string) {
    var i := First(m.watches, IsQueueNamed(name));
    i < |m.watches| && m.watches[i].dirty
  }

  /** inotify_add_watch says "watched already" only of a queue that is in the list. */
  predicate Honest(m: Memory, name: string, answer: Answer) {
    answer.Watched? ==> First(m.watches, IsQueueNamed(name)) < |m.watches|
  }

  lemma MoveTimerSurplus(m: Memory, name: string, answer: Answer, renamed: bool)
    ensures Surplus(MoveTimer(m, name, answer, renamed)) == Surplus(m)
  {
    if answer.Added? {
      AddWatchSurplus(m, name, QueueDir, answer.wd, answer.ino, answer.nonEmpty);
    }
    TimerMoveSurplus(EnsureWatch(m, name, answer), name);
  }

  /** A name that is found first at i is found first at i + 1 behind a watch of another name. */
  lemma FirstBehind(w: Watch, ws: seq<Watch>, p: Watch -> bool)
    requires !p(w)
    ensures First([w] + ws, p) == 1 + First(ws, p)
  {
    assert ([w] + ws)[1..] == ws;
  }

  lemma {:induction false} SameFirst(ws: seq<Watch>, ws': seq<Watch>, p: Watch -> bool)
    requires |ws| == |ws'| && forall j | 0 <= j < |ws| :: p(ws'[j]) == p(ws[j])
    ensures First(ws', p) == First(ws, p)
    decreases |ws|
  {
    if ws != [] {
      SameFirst(ws[1..], ws'[1..], p);
    }
  }

  lemma MarkKeepsFirst(m: Memory, i: nat, name: string)
    requires i < |m.watches|
    ensures First(MarkDirty(m, i).watches, IsQueueNamed(name)) == First(m.watches, IsQueueNamed(name))
  {
    SameFirst(m.watches, MarkDirty(m, i).watches, IsQueueNamed(name));
  }

  lemma EnsureKeepsWaiting(m: Memory, name: string, answer: Answer, other: string)
    requires Waits(m, other)
    ensures Waits(EnsureWatch(m, name, answer), other)
  {
    if EnsureWatch(m, name, answer) != m {
      FirstBehind(EnsureWatch(m, name, answer).watches[0], m.watches, IsQueueNamed(other));
    }
  }

  lemma TimerMoveWaits(m: Memory, name: string, other: string)
    ensures First(m.watches, IsQueueNamed(name)) < |m.watches| ==> Waits(OnTimerMove(m, name), name)
    ensures Waits(m, other) ==> Waits(OnTimerMove(m, name), other)
  {
    var i := First(m.watches, IsQueueNamed(name));
    if i < |m.watches| {
      MarkKeepsFirst(m, i, name);
      MarkKeepsFirst(m, i, other);
    }
  }

  /** A successful rename leaves the queue watched and dirty, and no other dirty queue is forgotten. */
  lemma MoveTimerServes(m: Memory, name: string, answer: Answer, renamed: bool, other: string)
    ensures renamed && Honest(m, name, answer) ==> Waits(MoveTimer(m, name, answer, renamed), name)
    ensures Waits(m, other) ==> Waits(MoveTimer(m, name, answer, renamed), other)
  {
    if Waits(m, other) {
      EnsureKeepsWaiting(m, name, answer, other);
    }
    TimerMoveWaits(EnsureWatch(m, name, answer), name, other);
  }

  // ----- the handlers -----

  class Daemon {
    var watches: seq<Watch>
    var dirtyQueues: int
    var pauseAll: bool
    var timerChanged: bool

    ghost function Value(): Memory
      reads this
    {
      Memory(watches, dirtyQueues, pauseAll, timerChanged)
    }

    method MarkQueueDirty(i: nat)
      requires i < |watches|
      modifies this
      ensures Value() == MarkDirty(old(Value()), i)
    {
      if !watches[i].dirty {
        watches := watches[i := watches[i].(dirty := true)];
        dirtyQueues := dirtyQueues + 1;
      }
    }

    /** The list walk of process_pipefd_events, process_inotify_events and find_queue_watch. */
    method Find(p: Watch -> bool) returns (i: nat)
      ensures i == First(watches, p)
    {
      i := 0;
      while i < |watches| && !p(watches[i])
        invariant i <= |watches| && First(watches, p) == i + First(watches[i..], p)
      {
        i := i + 1;
      }
    }

    method ProcessPipeMessage(value: nat)
      modifies this
      ensures Value() == OnPipe(old(Value()), value)
    {
      var i := Find(IsQueueWd(value));
      if i < |watches| {
        MarkQueueDirty(i);
      }
    }

    /** watch_path once the kernel has accepted the watch. */
    method WatchPath(name: string, kind: Kind, wd: nat, ino: nat, nonEmpty: bool)
      modifies this
      ensures Value() == AddWatch(old(Value()), name, kind, wd, ino, nonEmpty)
    {
      var w := Watch(name, kind, wd, ino, false, false, 0);
      if kind.QueueDir? && nonEmpty {
        w := w.(dirty := true);
        dirtyQueues := dirtyQueues + 1;
      }
      if kind.TimerDir? && nonEmpty {
        timerChanged := true;
      }
      if pauseAll {
        w := w.(paused := true);
      }
      watches := [w] + watches;
    }

    method EnsureQueueDir(name: string, answer: Answer)
      modifies this
      ensures Value() == EnsureWatch(old(Value()), name, answer)
    {
      var i := Find(IsQueueNamed(name));
      if i == |watches| && answer.Added? {
        WatchPath(name, QueueDir, answer.wd, answer.ino, answer.nonEmpty);
      }
    }

    method MoveTimerEvent(name: string, answer: Answer, renamed: bool)
      modifies this
      ensures Value() == MoveTimer(old(Value()), name, answer, renamed)
    {
      EnsureQueueDir(name, answer);
      if renamed {
        var i := Find(IsQueueNamed(name));
        if i < |watches| {
          MarkQueueDirty(i);
        }
      }
    }

    method UnwatchPath(ino: nat)
      modifies this
      ensures Value() == Unwatch(old(Value()), ino)
    {
      var i := Find(IsIno(ino));
      if i < |watches| {
        watches := watches[..i] + watches[i + 1..];
      }
    }

    method ReapChild(pid: nat)
      modifies this
      ensures Value() == Reap(old(Value()), pid)
    {
      var i := 0;
      while i < |watches|
        invariant i <= |watches| == |old(watches)|
        invariant Value() == old(Value()).(watches := watches)
        invariant forall j | 0 <= j < |watches| ::
                    watches[j] == if j < i then Reaped(old(watches)[j], pid) else old(watches)[j]
      {
        if watches[i].pid == pid {
          watches := watches[i := watches[i].(pid := 0)];
        }
        i := i + 1;
      }
    }

    /** Lines 217-221. */
    method PauseMatching(name: string)
      modifies this`watches
      ensures |watches| == |old(watches)|
      ensures forall j | 0 <= j < |watches| :: watches[j] ==
                if old(watches)[j].kind.QueueDir? && (pauseAll || old(watches)[j].name == name)
                then old(watches)[j].(paused := true) else old(watches)[j]
    {
      var i := 0;
      while i < |watches|
        invariant i <= |watches| == |old(watches)|
        invariant forall j | 0 <= j < |watches| :: watches[j] ==
                    if j < i && old(watches)[j].kind.QueueDir? && (pauseAll || old(watches)[j].name == name)
                    then old(watches)[j].(paused := true) else old(watches)[j]
      {
        if watches[i].kind.QueueDir? && (pauseAll || watches[i].name == name) {
          watches := watches[i := watches[i].(paused := true)];
        }
        i := i + 1;
      }
    }

    /** Lines 203-206. */
    method ClearPaused()
      modifies this`watches
      ensures watches == PausedAll(old(watches), {})
    {
      var i := 0;
      while i < |watches|
        invariant i <= |watches| == |old(watches)|
        invariant forall j | 0 <= j < |watches| ::
                    watches[j] == if j < i then PausedBy(old(watches)[j], {}) else old(watches)[j]
      {
        watches := watches[i := watches[i].(paused := false)];
        i := i + 1;
      }
    }

    /** entries are the sub-directories of the pause directory in readdir order. */
    method ApplyPauses(entries: seq<string>)
      modifies this
      ensures Value() == ApplyPause(old(Value()), set e | e in entries)
    {
      pauseAll := false;
      ClearPaused();
      ghost var was := old(watches);
      var k := 0;
      while k < |entries|
        invariant k <= |entries| && !pauseAll && ".all" !in entries[..k]
        invariant watches == PausedAll(was, set e | e in entries[..k])
        invariant Value() == old(Value()).(watches := watches, pauseAll := pauseAll)
      {
        if entries[k] == ".all" {
          pauseAll := true;
        }
        PauseMatching(entries[k]);
        if pauseAll {
          assert watches == PausedAll(was, set e | e in entries);
          return;
        }
        assert entries[..k + 1] == entries[..k] + [entries[k]];
        k := k + 1;
      }
      assert entries[..k] == entries;
    }

    /** The loop at lines 723-734; pids(i) is what fork returns for watch i, and bug says that line 728 was reached. */
    method SpawnWorkers(pids: nat -> nat) returns (bug: bool)
      requires Surplus(Value()) >= 0
      modifies this
      ensures !bug && Surplus(Value()) == old(Surplus(Value()))
      ensures Value() == SpawnFrom(old(Value()), 0, pids)
    {
      var i := 0;
      while i < |watches|
        invariant i <= |watches|
        invariant Surplus(Value()) == old(Surplus(Value()))
        invariant SpawnFrom(old(Value()), 0, pids) == SpawnFrom(Value(), i, pids)
      {
        if Eligible(watches[i]) {
          DirtyCountPositive(watches, i);
          SpawnSurplus(Value(), i, pids(i));
          if dirtyQueues == 0 {
            return true;
          }
          dirtyQueues := dirtyQueues - 1;
          watches := watches[i := watches[i].(dirty := false, pid := pids(i))];
        }
        i := i + 1;
      }
      return false;
    }
  }
}

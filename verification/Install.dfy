/** The install passes of initrd-put: directories, a pool of workers, hardlinks, and again until nothing
    changes (utils/initrd-put/initrd-put.c:484-793, 917-948, 1171-1230). */
module Install {
  import opened Basics

  /** Files by number.  needs gives the entries that must exist before the system lets a file be created: the
      directories and links its path runs through.  Hardlinks come with the file they share an inode with. */
  datatype Setup = Setup(dirs: seq<nat>, files: seq<nat>, links: seq<(nat, nat)>, needs: nat -> set<nat>, jobs: nat)

  ghost function LinkNames(links: seq<(nat, nat)>): set<nat> {
    set l | l in links :: l.0
  }

  /** All files, each in one of the three lists. */
  ghost function All(c: Setup): set<nat> {
    Elements(c.dirs) + Elements(c.files) + LinkNames(c.links)
  }

  // ----- states and steps -----

  datatype Worker = Idle | Holds(file: nat) | Made(file: nat) | Gone

  datatype Phase = Dirs(i: nat) | Pool | Links(i: nat) | Finished | Fatal

  /** made lists the files in the order they were created; flagged are those with the installed flag set, and count
      is the counter.  claimed lists the indices the workers took in this pass, start is what was flagged when the
      pass began, and passes counts the passes before it. */
  datatype State = State(
    phase: Phase, made: seq<nat>, flagged: set<nat>, count: nat,
    next: nat, workers: seq<Worker>, claimed: seq<nat>, start: set<nat>, passes: nat)

  datatype Step = Dir | Claim(w: nat) | Make(w: nat) | Flag(w: nat) | Join | Link

  ghost predicate CanMake(c: Setup, made: seq<nat>, f: nat) {
    c.needs(f) <= Elements(made)
  }

  /** A file created, flagged and counted by the main thread. */
  ghost function Installed(s: State, f: nat): State {
    s.(made := s.made + [f], flagged := s.flagged + {f}, count := s.count + 1)
  }

  /** The next candidate at or after an index (lines 932-938), or the end. */
  ghost function Scan(files: seq<nat>, flagged: set<nat>, from: nat): (k: nat)
    requires from <= |files|
    ensures from <= k <= |files| && (k < |files| ==> files[k] !in flagged)
    ensures forall i | from <= i < k :: files[i] in flagged
    decreases |files| - from
  {
    if from == |files| || files[from] !in flagged then from else Scan(files, flagged, from + 1)
  }

  ghost predicate Enabled(c: Setup, s: State, step: Step) {
    match step
    case Dir => s.phase.Dirs?
    case Claim(w) => s.phase.Pool? && w < |s.workers| && s.workers[w].Idle? && s.next <= |c.files|
    case Make(w) => s.phase.Pool? && w < |s.workers| && s.workers[w].Holds?
    case Flag(w) => s.phase.Pool? && w < |s.workers| && s.workers[w].Made?
    case Join => s.phase.Pool? && forall w | 0 <= w < |s.workers| :: s.workers[w].Gone?
    case Link => s.phase.Links?
  }

  ghost function Apply(c: Setup, s: State, step: Step): State
    requires Enabled(c, s, step)
  {
    match step
    case Dir => ApplyDir(c, s)
    case Claim(w) => ApplyClaim(c, s, w)
    case Make(w) => if CanMake(c, s.made, s.workers[w].file) then Created(s, w, s.workers[w].file) else GivenUp(s, w)
    case Flag(w) => Marked(s, w, s.workers[w].file)
    case Join => s.(phase := Links(0))
    case Link => ApplyLink(c, s)
  }

  ghost function Created(s: State, w: nat, f: nat): State
    requires w < |s.workers|
  {
    s.(made := s.made + [f], workers := s.workers[w := Made(f)])
  }

  /** The parent does not exist yet: the file is left for the next pass. */
  ghost function GivenUp(s: State, w: nat): State
    requires w < |s.workers|
  {
    s.(workers := s.workers[w := Idle])
  }

  ghost function Marked(s: State, w: nat, f: nat): State
    requires w < |s.workers|
  {
    s.(flagged := s.flagged + {f}, count := s.count + 1, workers := s.workers[w := Idle])
  }

  /** Step 1 of a pass (lines 1175-1178). */
  ghost function ApplyDir(c: Setup, s: State): State
    requires s.phase.Dirs?
  {
    var i := s.phase.i;
    if i >= |c.dirs| then s.(phase := Pool, next := 0, workers := seq(c.jobs, _ => Idle), claimed := [])
    else
      var f, t := c.dirs[i], s.(phase := Dirs(i + 1));
      if f !in s.flagged && CanMake(c, s.made, f) then Installed(t, f) else t
  }

  ghost function Taken(s: State, w: nat, k: nat, f: nat): State
    requires w < |s.workers|
  {
    s.(next := k + 1, claimed := s.claimed + [k], workers := s.workers[w := Holds(f)])
  }

  ghost function Left(s: State, w: nat, k: nat): State
    requires w < |s.workers|
  {
    s.(next := k, workers := s.workers[w := Gone])
  }

  ghost function ApplyClaim(c: Setup, s: State, w: nat): State
    requires w < |s.workers| && s.next <= |c.files|
  {
    var k := Scan(c.files, s.flagged, s.next);
    if k < |c.files| then Taken(s, w, k, c.files[k]) else Left(s, w, k)
  }

  /** Step 3 and the end of a pass (lines 1214-1220).  Linking to an installed file stops the program when the
      directory is missing; a file that cannot be linked is copied like any other. */
  ghost function ApplyLink(c: Setup, s: State): State
    requires s.phase.Links?
  {
    var i := s.phase.i;
    if i >= |c.links| then
      if s.count == |s.start| then s.(phase := Finished)
      else s.(phase := Dirs(0), start := s.flagged, passes := s.passes + 1)
    else
      var f, target, t := c.links[i].0, c.links[i].1, s.(phase := Links(i + 1));
      if f in s.flagged then t
      else if CanMake(c, s.made, f) then Installed(t, f)
      else if target in s.flagged then s.(phase := Fatal)
      else t
  }

  ghost predicate CanRun(c: Setup, s: State, steps: seq<Step>)
    decreases |steps|
  {
    steps != [] ==> Enabled(c, s, steps[0]) && CanRun(c, Apply(c, s, steps[0]), steps[1..])
  }

  ghost function Run(c: Setup, s: State, steps: seq<Step>): State
    requires CanRun(c, s, steps)
    decreases |steps|
  {
    if steps == [] then s else Run(c, Apply(c, s, steps[0]), steps[1..])
  }

  const START: State := State(Dirs(0), [], {}, 0, 0, [], [], {}, 0)

  // ----- what can be installed -----

  /** An order in which each file finds what it needs. */
  ghost predicate Possible(c: Setup, p: seq<nat>) {
    forall i {:trigger FitsAt(c, p, i)} | 0 <= i < |p| :: FitsAt(c, p, i)
  }

  ghost predicate FitsAt(c: Setup, p: seq<nat>, i: int) {
    0 <= i < |p| && p[i] in All(c) && c.needs(p[i]) <= Elements(p[..i])
  }

  ghost predicate Installable(c: Setup, f: nat) {
    exists p :: Possible(c, p) && f in p
  }

  // ----- what the workers have -----

  predicate Busy(w: Worker) {
    w.Holds? || w.Made?
  }

  ghost function Hands(ws: seq<Worker>): set<nat> {
    set w | 0 <= w < |ws| && Busy(ws[w]) :: ws[w].file
  }

  ghost function MadeHands(ws: seq<Worker>): set<nat> {
    set w | 0 <= w < |ws| && ws[w].Made? :: ws[w].file
  }

  ghost predicate Injective(ws: seq<Worker>) {
    forall w, v | 0 <= w < v < |ws| && Busy(ws[w]) && Busy(ws[v]) :: ws[w].file != ws[v].file
  }

  ghost function HandOf(w: Worker): set<nat> {
    if Busy(w) then {w.file} else {}
  }

  ghost function MadeOf(w: Worker): set<nat> {
    if w.Made? then {w.file} else {}
  }

  ghost function Others(ws: seq<Worker>, w: nat): set<nat> {
    set v | 0 <= v < |ws| && v != w && Busy(ws[v]) :: ws[v].file
  }

  ghost function MadeOthers(ws: seq<Worker>, w: nat): set<nat> {
    set v | 0 <= v < |ws| && v != w && ws[v].Made? :: ws[v].file
  }

  lemma OneAndOthers(ws: seq<Worker>, w: nat)
    requires w < |ws|
    ensures Hands(ws) == HandOf(ws[w]) + Others(ws, w) && MadeHands(ws) == MadeOf(ws[w]) + MadeOthers(ws, w)
    ensures MadeOthers(ws, w) <= Others(ws, w) && (Injective(ws) ==> HandOf(ws[w]) !! Others(ws, w))
  {
    forall x ensures x in Hands(ws) <==> x in HandOf(ws[w]) + Others(ws, w) {
      if x in HandOf(ws[w]) {
        assert Busy(ws[w]);
      }
    }
    forall x ensures x in MadeHands(ws) <==> x in MadeOf(ws[w]) + MadeOthers(ws, w) {
      if x in MadeOf(ws[w]) {
        assert ws[w].Made?;
      }
    }
    forall x | x in MadeOthers(ws, w) ensures x in Others(ws, w) {
      var v :| 0 <= v < |ws| && v != w && ws[v].Made? && ws[v].file == x;
      assert Busy(ws[v]);
    }
  }

  lemma OthersStay(ws: seq<Worker>, w: nat, x: Worker)
    requires w < |ws|
    ensures Others(ws[w := x], w) == Others(ws, w) && MadeOthers(ws[w := x], w) == MadeOthers(ws, w)
    ensures Injective(ws) && HandOf(x) !! Others(ws, w) ==> Injective(ws[w := x])
  {
    var ws' := ws[w := x];
    assert forall v | 0 <= v < |ws| && v != w :: ws'[v] == ws[v];
    if Injective(ws) && HandOf(x) !! Others(ws, w) {
      forall v, u | 0 <= v < u < |ws'| && Busy(ws'[v]) && Busy(ws'[u]) ensures ws'[v].file != ws'[u].file {
        if v == w {
          assert ws[u].file in Others(ws, w);
        } else if u == w {
          assert ws[v].file in Others(ws, w);
        }
      }
    }
  }

  /** The files in hand after worker w becomes x. */
  lemma Changed(ws: seq<Worker>, w: nat, x: Worker)
    requires w < |ws| && Injective(ws) && HandOf(x) !! Others(ws, w)
    ensures Injective(ws[w := x])
    ensures Hands(ws[w := x]) == HandOf(x) + (Hands(ws) - HandOf(ws[w]))
    ensures MadeHands(ws[w := x]) == MadeOf(x) + (MadeHands(ws) - MadeOf(ws[w]))
  {
    OneAndOthers(ws, w);
    OthersStay(ws, w, x);
    OneAndOthers(ws[w := x], w);
  }

  // ----- the invariant -----

  /** What is created is what is flagged or about to be; the counter counts the flags. */
  ghost predicate Counted(s: State) {
    s.count == |s.flagged| && Elements(s.made) == s.flagged + MadeHands(s.workers)
  }

  /** No two workers have the same file, and none has a flagged one. */
  ghost predicate Exclusive(s: State) {
    Injective(s.workers) && Hands(s.workers) !! s.flagged
  }

  /** The indices taken in a pass increase, so none is taken twice; what a worker has was taken; a worker leaves when
      nothing is left to take. */
  ghost predicate Claims(c: Setup, s: State) {
    && Increasing(s.claimed) && (forall k | k in s.claimed :: k < s.next)
    && s.next <= |c.files| && Hands(s.workers) <= Elements(c.files[..s.next])
    && forall w | 0 <= w < |s.workers| && s.workers[w].Gone? :: s.next == |c.files|
  }

  /** The file was not left out of this pass: it is flagged, in a worker's hand, or could not be created. */
  ghost predicate Tried(c: Setup, s: State, f: nat) {
    f in s.flagged || f in Hands(s.workers) || !(c.needs(f) <= s.start)
  }

  ghost predicate AllTried(c: Setup, s: State, fs: set<nat>) {
    forall f {:trigger Tried(c, s, f)} | f in fs :: Tried(c, s, f)
  }

  /** What the pass has dealt with so far. */
  ghost function Behind(c: Setup, s: State): set<nat> {
    match s.phase
    case Dirs(i) => if i <= |c.dirs| then Elements(c.dirs[..i]) else {}
    case Pool => if s.next <= |c.files| then Elements(c.dirs) + Elements(c.files[..s.next]) else {}
    case Links(i) => if i <= |c.links| then Elements(c.dirs) + Elements(c.files) + LinkNames(c.links[..i]) else {}
    case Finished => All(c)
    case Fatal => {}
  }

  ghost predicate Progress(c: Setup, s: State) {
    && s.start <= s.flagged && s.passes <= |s.start| && AllTried(c, s, Behind(c, s))
    && (s.phase.Dirs? ==> s.phase.i <= |c.dirs|) && (s.phase.Links? ==> s.phase.i <= |c.links|)
    && (s.phase.Finished? ==> s.flagged == s.start)
    && (s.phase.Pool? ==> |s.workers| > 0) && (!s.phase.Pool? ==> Hands(s.workers) == {})
  }

  ghost predicate Inv(c: Setup, s: State) {
    Counted(s) && Exclusive(s) && Claims(c, s) && Progress(c, s) && Possible(c, s.made) && s.flagged <= All(c)
  }

  ghost predicate WellFormed(c: Setup) {
    Distinct(c.files) && c.jobs > 0
  }

  // ----- steps keep it -----

  lemma ElementsAppend(s: seq<nat>, x: nat)
    ensures Elements(s + [x]) == Elements(s) + {x}
  {
  }

  lemma PossibleAppend(c: Setup, made: seq<nat>, f: nat)
    requires Possible(c, made) && CanMake(c, made, f) && f in All(c)
    ensures Possible(c, made + [f])
  {
    var p := made + [f];
    forall i | 0 <= i < |p| ensures FitsAt(c, p, i) {
      assert p[..i] == made[..i];
      if i == |made| {
        assert made[..i] == made;
      } else {
        assert FitsAt(c, made, i);
      }
    }
  }

  /** What was tried stays tried while the flags and the hands only grow together. */
  lemma StillTried(c: Setup, s: State, t: State, fs: set<nat>)
    requires AllTried(c, s, fs) && t.start == s.start
    requires forall f | f in s.flagged + Hands(s.workers) :: Tried(c, t, f)
    ensures AllTried(c, t, fs)
  {
    forall f | f in fs ensures Tried(c, t, f) {
      assert Tried(c, s, f);
    }
  }

  lemma NothingMade(ws: seq<Worker>)
    ensures MadeHands(ws) <= Hands(ws)
  {
    forall x | x in MadeHands(ws) ensures x in Hands(ws) {
      var v :| 0 <= v < |ws| && ws[v].Made? && ws[v].file == x;
      assert Busy(ws[v]);
    }
  }

  /** The main thread is at another place of its loops. */
  ghost predicate Moves(c: Setup, s: State, f: nat, phase: Phase) {
    && !s.phase.Finished? && !s.phase.Pool? && (phase.Dirs? || phase.Links?)
    && (phase.Dirs? ==> phase.i <= |c.dirs|) && (phase.Links? ==> phase.i <= |c.links|)
    && Behind(c, s.(phase := phase)) == Behind(c, s) + {f}
  }

  /** The main thread passes over a file that is flagged already or cannot be created yet. */
  lemma MainSkips(c: Setup, s: State, f: nat, phase: Phase)
    requires Inv(c, s) && Moves(c, s, f, phase) && (f in s.flagged || !CanMake(c, s.made, f))
    ensures Inv(c, s.(phase := phase))
  {
    var t := s.(phase := phase);
    NothingMade(s.workers);
    StillTried(c, s, t, Behind(c, s));
    assert Tried(c, t, f);
  }

  lemma InstalledCounted(c: Setup, s: State, f: nat)
    requires Counted(s) && Exclusive(s) && Hands(s.workers) == {} && f !in s.flagged
    ensures Counted(Installed(s, f)) && Exclusive(Installed(s, f))
  {
    NothingMade(s.workers);
    ElementsAppend(s.made, f);
  }

  lemma InstalledProgress(c: Setup, s: State, f: nat, phase: Phase)
    requires Progress(c, s) && Moves(c, s, f, phase) && Hands(s.workers) == {}
    ensures Progress(c, Installed(s.(phase := phase), f))
  {
    var t := Installed(s.(phase := phase), f);
    StillTried(c, s, t, Behind(c, s));
    assert Behind(c, t) == Behind(c, s.(phase := phase));
    assert Tried(c, t, f);
  }

  /** The main thread creates a file. */
  lemma MainInstalls(c: Setup, s: State, f: nat, phase: Phase)
    requires Inv(c, s) && Moves(c, s, f, phase) && f in All(c) && f !in s.flagged && CanMake(c, s.made, f)
    ensures Inv(c, Installed(s.(phase := phase), f))
  {
    InstalledCounted(c, s.(phase := phase), f);
    InstalledProgress(c, s, f, phase);
    PossibleAppend(c, s.made, f);
  }

  lemma MainKeeps(c: Setup, s: State, f: nat, phase: Phase)
    requires Inv(c, s) && Moves(c, s, f, phase) && f in All(c)
    ensures f in s.flagged || !CanMake(c, s.made, f) ==> Inv(c, s.(phase := phase))
    ensures f !in s.flagged && CanMake(c, s.made, f) ==> Inv(c, Installed(s.(phase := phase), f))
  {
    if f in s.flagged || !CanMake(c, s.made, f) {
      MainSkips(c, s, f, phase);
    } else {
      MainInstalls(c, s, f, phase);
    }
  }

  lemma IdleHands(n: nat)
    ensures var ws := seq(n, _ => Idle); Hands(ws) == {} && MadeHands(ws) == {} && Injective(ws)
  {
  }

  lemma DirKeeps(c: Setup, s: State)
    requires WellFormed(c) && Inv(c, s) && s.phase.Dirs?
    ensures Inv(c, ApplyDir(c, s))
  {
    var i := s.phase.i;
    if i >= |c.dirs| {
      var t := ApplyDir(c, s);
      IdleHands(c.jobs);
      NothingMade(s.workers);
      assert c.dirs[..i] == c.dirs && c.files[..0] == [];
      assert Behind(c, t) == Behind(c, s);
      StillTried(c, s, t, Behind(c, s));
    } else {
      assert c.dirs[..i + 1] == c.dirs[..i] + [c.dirs[i]];
      ElementsAppend(c.dirs[..i], c.dirs[i]);
      MainKeeps(c, s, c.dirs[i], Dirs(i + 1));
    }
  }

  lemma LinkNamesAppend(links: seq<(nat, nat)>, i: nat)
    requires i < |links|
    ensures LinkNames(links[..i + 1]) == LinkNames(links[..i]) + {links[i].0} && links[i].0 in LinkNames(links)
  {
    assert links[..i + 1] == links[..i] + [links[i]];
    assert links[i] in links;
  }

  /** The pass ends: nothing changed, or another pass begins with more flags than this one. */
  lemma PassEnds(c: Setup, s: State)
    requires Inv(c, s) && s.phase.Links? && s.phase.i >= |c.links|
    ensures Inv(c, ApplyLink(c, s))
  {
    var t := ApplyLink(c, s);
    assert c.links[..s.phase.i] == c.links;
    SubsetSize(s.start, s.flagged);
    if t.phase.Finished? {
      StillTried(c, s, t, Behind(c, s));
    } else {
      assert c.dirs[..0] == [];
    }
  }

  lemma LinkKeeps(c: Setup, s: State)
    requires WellFormed(c) && Inv(c, s) && s.phase.Links?
    ensures Inv(c, ApplyLink(c, s))
  {
    if s.phase.i >= |c.links| {
      PassEnds(c, s);
    } else {
      LinkTurnKeeps(c, s);
    }
  }

  lemma LinkTurnKeeps(c: Setup, s: State)
    requires Inv(c, s) && s.phase.Links? && s.phase.i < |c.links|
    ensures Inv(c, ApplyLink(c, s))
  {
    var f, phase := c.links[s.phase.i].0, Links(s.phase.i + 1);
    LinkOutcomes(c, s);
    LinkMoves(c, s);
    if f !in s.flagged && CanMake(c, s.made, f) {
      MainInstalls(c, s, f, phase);
    } else if f !in s.flagged && c.links[s.phase.i].1 in s.flagged {
      FatalKeeps(c, s);
    } else {
      MainSkips(c, s, f, phase);
    }
  }

  /** What one turn of the loop over the hardlinks can do. */
  lemma LinkOutcomes(c: Setup, s: State)
    requires s.phase.Links? && s.phase.i < |c.links|
    ensures var f, t := c.links[s.phase.i].0, s.(phase := Links(s.phase.i + 1));
            ApplyLink(c, s) == if f !in s.flagged && CanMake(c, s.made, f) then Installed(t, f)
                               else if f !in s.flagged && c.links[s.phase.i].1 in s.flagged then s.(phase := Fatal)
                               else t
  {
  }

  lemma LinkMoves(c: Setup, s: State)
    requires s.phase.Links? && s.phase.i < |c.links|
    ensures Moves(c, s, c.links[s.phase.i].0, Links(s.phase.i + 1)) && c.links[s.phase.i].0 in All(c)
  {
    LinkNamesAppend(c.links, s.phase.i);
    assert Behind(c, s.(phase := Links(s.phase.i + 1))) == Behind(c, s) + {c.links[s.phase.i].0};
  }

  lemma FatalKeeps(c: Setup, s: State)
    requires Inv(c, s) && !s.phase.Pool?
    ensures Inv(c, s.(phase := Fatal))
  {
  }

  // ----- steps of the workers -----

  lemma ScanBehind(files: seq<nat>, from: nat, k: nat, flagged: set<nat>)
    requires from <= k <= |files| && forall i | from <= i < k :: files[i] in flagged
    ensures Elements(files[..k]) <= Elements(files[..from]) + flagged
  {
    forall x | x in files[..k] ensures x in Elements(files[..from]) + flagged {
      var i :| 0 <= i < k && files[i] == x;
      if i < from {
        assert files[..from][i] == x;
      }
    }
  }

  lemma NotBefore(files: seq<nat>, next: nat, k: nat)
    requires Distinct(files) && next <= k < |files|
    ensures files[k] !in Elements(files[..next])
  {
  }

  lemma ClaimKeeps(c: Setup, s: State, w: nat)
    requires WellFormed(c) && Inv(c, s) && Enabled(c, s, Claim(w))
    ensures Inv(c, ApplyClaim(c, s, w))
  {
    var k := Scan(c.files, s.flagged, s.next);
    ScanBehind(c.files, s.next, k, s.flagged);
    if k < |c.files| {
      TakenKeeps(c, s, w, k);
    } else {
      LeftKeeps(c, s, w, k);
    }
  }

  lemma TakenHands(c: Setup, s: State, w: nat, k: nat)
    requires Exclusive(s) && Claims(c, s) && w < |s.workers| && s.workers[w].Idle? && s.next <= k < |c.files| && Distinct(c.files)
    ensures var f := c.files[k]; var ws := s.workers[w := Holds(f)];
            Injective(ws) && Hands(ws) == Hands(s.workers) + {f} && MadeHands(ws) == MadeHands(s.workers)
  {
    NotBefore(c.files, s.next, k);
    OneAndOthers(s.workers, w);
    Changed(s.workers, w, Holds(c.files[k]));
  }

  lemma TakenClaims(c: Setup, s: State, w: nat, k: nat)
    requires Claims(c, s) && w < |s.workers| && s.workers[w].Idle? && s.next <= k < |c.files|
    requires Hands(s.workers[w := Holds(c.files[k])]) == Hands(s.workers) + {c.files[k]}
    ensures Claims(c, Taken(s, w, k, c.files[k]))
  {
    assert c.files[..k + 1] == c.files[..k] + [c.files[k]];
    PrefixGrows(c.files, s.next, k + 1);
    IncreasingAppend(s.claimed, k);
  }

  lemma TakenProgress(c: Setup, s: State, w: nat, k: nat)
    requires Progress(c, s) && s.phase.Pool? && w < |s.workers| && s.next <= k < |c.files|
    requires Elements(c.files[..k]) <= Elements(c.files[..s.next]) + s.flagged
    requires Hands(s.workers[w := Holds(c.files[k])]) == Hands(s.workers) + {c.files[k]}
    ensures Progress(c, Taken(s, w, k, c.files[k]))
  {
    var t := Taken(s, w, k, c.files[k]);
    assert c.files[..k + 1] == c.files[..k] + [c.files[k]];
    ElementsAppend(c.files[..k], c.files[k]);
    StillTried(c, s, t, Behind(c, s));
    forall f | f in Behind(c, t) ensures Tried(c, t, f) {
      if f in Behind(c, s) {
        assert Tried(c, t, f);
      }
    }
  }

  lemma TakenKeeps(c: Setup, s: State, w: nat, k: nat)
    requires WellFormed(c) && Inv(c, s) && s.phase.Pool? && w < |s.workers| && s.workers[w].Idle? && s.next <= k < |c.files|
    requires c.files[k] !in s.flagged && Elements(c.files[..k]) <= Elements(c.files[..s.next]) + s.flagged
    ensures Inv(c, Taken(s, w, k, c.files[k]))
  {
    TakenHands(c, s, w, k);
    TakenClaims(c, s, w, k);
    TakenProgress(c, s, w, k);
  }

  lemma PrefixGrows(files: seq<nat>, i: nat, j: nat)
    requires i <= j <= |files|
    ensures Elements(files[..i]) <= Elements(files[..j])
  {
    forall x | x in files[..i] ensures x in files[..j] {
      var k :| 0 <= k < i && files[k] == x;
      assert files[..j][k] == x;
    }
  }

  lemma LeftProgress(c: Setup, s: State, w: nat, k: nat)
    requires Progress(c, s) && s.phase.Pool? && w < |s.workers| && k == |c.files| && Hands(s.workers[w := Gone]) == Hands(s.workers)
    requires s.next <= k && Elements(c.files[..k]) <= Elements(c.files[..s.next]) + s.flagged
    ensures Progress(c, Left(s, w, k))
  {
    var t := Left(s, w, k);
    StillTried(c, s, t, Behind(c, s));
    forall f | f in Behind(c, t) ensures Tried(c, t, f) {
      if f in Behind(c, s) {
        assert Tried(c, t, f);
      }
    }
  }

  lemma LeftHands(s: State, w: nat)
    requires Exclusive(s) && w < |s.workers| && s.workers[w].Idle?
    ensures var ws := s.workers[w := Gone]; Injective(ws) && Hands(ws) == Hands(s.workers) && MadeHands(ws) == MadeHands(s.workers)
  {
    Changed(s.workers, w, Gone);
  }

  lemma LeftClaims(c: Setup, s: State, w: nat, k: nat)
    requires Claims(c, s) && w < |s.workers| && k == |c.files| && Hands(s.workers[w := Gone]) == Hands(s.workers)
    ensures Claims(c, Left(s, w, k))
  {
    PrefixGrows(c.files, s.next, k);
  }

  lemma LeftKeeps(c: Setup, s: State, w: nat, k: nat)
    requires Inv(c, s) && s.phase.Pool? && w < |s.workers| && s.workers[w].Idle? && k == |c.files|
    requires Elements(c.files[..k]) <= Elements(c.files[..s.next]) + s.flagged
    ensures Inv(c, Left(s, w, k))
  {
    LeftHands(s, w);
    LeftClaims(c, s, w, k);
    LeftProgress(c, s, w, k);
  }

  // A worker creates its file, or gives it up for this pass.

  lemma MadeHandsAre(s: State, w: nat, x: Worker)
    requires Exclusive(s) && w < |s.workers| && Busy(s.workers[w]) && HandOf(x) <= {s.workers[w].file}
    ensures var f, ws := s.workers[w].file, s.workers[w := x];
            && Injective(ws) && Hands(ws) == HandOf(x) + (Hands(s.workers) - {f})
            && MadeHands(ws) == MadeOf(x) + (MadeHands(s.workers) - MadeOf(s.workers[w]))
            && f in Hands(s.workers) && (f in MadeHands(s.workers) <==> s.workers[w].Made?)
  {
    OneAndOthers(s.workers, w);
    Changed(s.workers, w, x);
  }

  /** Something about a worker changes that takes no file from what was tried. */
  lemma WorkerProgress(c: Setup, s: State, t: State)
    requires Progress(c, s) && s.phase.Pool? && t.phase.Pool? && t.next == s.next && t.start == s.start && t.passes == s.passes
    requires s.flagged <= t.flagged && |t.workers| == |s.workers|
    requires forall f | f in Hands(s.workers) :: Tried(c, t, f)
    ensures Progress(c, t)
  {
    StillTried(c, s, t, Behind(c, s));
    assert Behind(c, t) == Behind(c, s);
  }

  lemma WorkerClaims(c: Setup, s: State, t: State, w: nat, x: Worker)
    requires Claims(c, s) && w < |s.workers| && t.workers == s.workers[w := x] && !x.Gone?
    requires t.next == s.next && t.claimed == s.claimed && Hands(t.workers) <= Hands(s.workers)
    ensures Claims(c, t)
  {
  }

  lemma HandsWithin(c: Setup, s: State)
    requires Claims(c, s)
    ensures Hands(s.workers) <= All(c)
  {
    PrefixGrows(c.files, s.next, |c.files|);
    assert c.files[..|c.files|] == c.files;
  }

  lemma CreatedSets(made: set<nat>, flagged: set<nat>, hands: set<nat>, madeHands: set<nat>, f: nat)
    requires made == flagged + madeHands && f in hands
    ensures made + {f} == flagged + ({f} + (madeHands - {})) && {f} + (hands - {f}) == hands
  {
  }

  lemma CreatedCounted(s: State, w: nat, f: nat)
    requires Counted(s) && Exclusive(s) && w < |s.workers| && s.workers[w] == Holds(f)
    ensures Counted(Created(s, w, f)) && Exclusive(Created(s, w, f)) && Hands(Created(s, w, f).workers) == Hands(s.workers)
  {
    MadeHandsAre(s, w, Made(f));
    ElementsAppend(s.made, f);
    CreatedSets(Elements(s.made), s.flagged, Hands(s.workers), MadeHands(s.workers), f);
  }

  lemma CreatedKeeps(c: Setup, s: State, w: nat, f: nat)
    requires Inv(c, s) && s.phase.Pool? && w < |s.workers| && s.workers[w] == Holds(f) && CanMake(c, s.made, f)
    ensures Inv(c, Created(s, w, f))
  {
    CreatedCounted(s, w, f);
    HandsWithin(c, s);
    OneAndOthers(s.workers, w);
    PossibleAppend(c, s.made, f);
    WorkerClaims(c, s, Created(s, w, f), w, Made(f));
    WorkerProgress(c, s, Created(s, w, f));
  }

  lemma GivenUpCounted(s: State, w: nat, f: nat)
    requires Counted(s) && Exclusive(s) && w < |s.workers| && s.workers[w] == Holds(f)
    ensures Counted(GivenUp(s, w)) && Exclusive(GivenUp(s, w)) && Hands(GivenUp(s, w).workers) == Hands(s.workers) - {f}
  {
    MadeHandsAre(s, w, Idle);
    GivenUpSets(Hands(s.workers), MadeHands(s.workers), s.flagged, f);
  }

  lemma GivenUpSets(hands: set<nat>, madeHands: set<nat>, flagged: set<nat>, f: nat)
    requires hands !! flagged
    ensures {} + (hands - {f}) == hands - {f} && hands - {f} !! flagged && {} + (madeHands - {}) == madeHands
  {
  }

  lemma GivenUpKeeps(c: Setup, s: State, w: nat, f: nat)
    requires Inv(c, s) && s.phase.Pool? && w < |s.workers| && s.workers[w] == Holds(f) && !CanMake(c, s.made, f)
    ensures Inv(c, GivenUp(s, w))
  {
    GivenUpCounted(s, w, f);
    WorkerClaims(c, s, GivenUp(s, w), w, Idle);
    WorkerProgress(c, s, GivenUp(s, w));
  }

  lemma MarkedSets(made: set<nat>, flagged: set<nat>, hands: set<nat>, madeHands: set<nat>, f: nat)
    requires made == flagged + madeHands && f in madeHands && f in hands && hands !! flagged
    ensures made == flagged + {f} + ({} + (madeHands - {f})) && |flagged + {f}| == |flagged| + 1
    ensures {} + (hands - {f}) == hands - {f} && hands - {f} !! flagged + {f}
  {
    assert f !in flagged;
  }

  lemma MarkedCounted(s: State, w: nat, f: nat)
    requires Counted(s) && Exclusive(s) && w < |s.workers| && s.workers[w] == Made(f)
    ensures Counted(Marked(s, w, f)) && Exclusive(Marked(s, w, f)) && Hands(Marked(s, w, f).workers) == Hands(s.workers) - {f}
  {
    MadeHandsAre(s, w, Idle);
    MarkedHands(s, w, f, Hands(s.workers), MadeHands(s.workers));
  }

  lemma MarkedHands(s: State, w: nat, f: nat, hands: set<nat>, madeHands: set<nat>)
    requires s.count == |s.flagged| && Elements(s.made) == s.flagged + madeHands && hands !! s.flagged && w < |s.workers|
    requires f in hands && f in madeHands && Injective(s.workers[w := Idle])
    requires Hands(s.workers[w := Idle]) == {} + (hands - {f}) && MadeHands(s.workers[w := Idle]) == {} + (madeHands - {f})
    ensures Counted(Marked(s, w, f)) && Exclusive(Marked(s, w, f)) && Hands(Marked(s, w, f).workers) == hands - {f}
  {
    MarkedSets(Elements(s.made), s.flagged, hands, madeHands, f);
  }

  lemma MarkedKeeps(c: Setup, s: State, w: nat, f: nat)
    requires Inv(c, s) && s.phase.Pool? && w < |s.workers| && s.workers[w] == Made(f)
    ensures Inv(c, Marked(s, w, f))
  {
    MarkedCounted(s, w, f);
    HandsWithin(c, s);
    OneAndOthers(s.workers, w);
    WorkerClaims(c, s, Marked(s, w, f), w, Idle);
    WorkerProgress(c, s, Marked(s, w, f));
  }

  lemma GoneHands(ws: seq<Worker>)
    requires forall w | 0 <= w < |ws| :: ws[w].Gone?
    ensures Hands(ws) == {}
  {
  }

  lemma JoinKeeps(c: Setup, s: State)
    requires Inv(c, s) && Enabled(c, s, Join)
    ensures Inv(c, Apply(c, s, Join))
  {
    var t := Apply(c, s, Join);
    GoneHands(s.workers);
    assert s.workers[0].Gone? && c.files[..|c.files|] == c.files && c.links[..0] == [];
    StillTried(c, s, t, Behind(c, s));
    assert Behind(c, t) == Behind(c, s);
  }

  lemma StepKeeps(c: Setup, s: State, step: Step)
    requires WellFormed(c) && Inv(c, s) && Enabled(c, s, step)
    ensures Inv(c, Apply(c, s, step))
  {
    match step
    case Dir => DirKeeps(c, s);
    case Claim(w) => ClaimKeeps(c, s, w);
    case Make(w) =>
      var f := s.workers[w].file;
      if CanMake(c, s.made, f) {
        CreatedKeeps(c, s, w, f);
      } else {
        GivenUpKeeps(c, s, w, f);
      }
    case Flag(w) => MarkedKeeps(c, s, w, s.workers[w].file);
    case Join => JoinKeeps(c, s);
    case Link => LinkKeeps(c, s);
  }

  lemma {:induction false} RunKeeps(c: Setup, s: State, steps: seq<Step>)
    requires WellFormed(c) && Inv(c, s) && CanRun(c, s, steps)
    ensures Inv(c, Run(c, s, steps))
    decreases |steps|
  {
    if steps != [] {
      StepKeeps(c, s, steps[0]);
      RunKeeps(c, Apply(c, s, steps[0]), steps[1..]);
    }
  }

  lemma StartInv(c: Setup)
    ensures Inv(c, START)
  {
    assert c.dirs[..0] == [] && c.files[..0] == [];
  }

  // ----- what every run promises -----

  /** In every state of every interleaving the counter is the number of flagged files, no two workers are at the same
      file, no index is taken twice in a pass, and there were at most as many passes as there are files. */
  lemma EveryRunIsSafe(c: Setup, steps: seq<Step>)
    requires WellFormed(c) && CanRun(c, START, steps)
    ensures var s := Run(c, START, steps);
            s.count == |s.flagged| && Injective(s.workers) && Increasing(s.claimed) && s.flagged <= All(c) && s.passes <= |All(c)|
  {
    StartInv(c);
    RunKeeps(c, START, steps);
    var s := Run(c, START, steps);
    SubsetSize(s.flagged, All(c));
    SubsetSize(s.start, s.flagged);
  }

  lemma {:induction false} PossibleIsFlagged(c: Setup, flagged: set<nat>, p: seq<nat>, n: nat)
    requires Possible(c, p) && n <= |p| && forall f | f in All(c) && c.needs(f) <= flagged :: f in flagged
    ensures Elements(p[..n]) <= flagged
    decreases n
  {
    if n > 0 {
      PossibleIsFlagged(c, flagged, p, n - 1);
      assert FitsAt(c, p, n - 1) && p[..n] == p[..n - 1] + [p[n - 1]];
    }
  }

  lemma FinishedIsClosed(c: Setup, s: State)
    requires Inv(c, s) && s.phase.Finished?
    ensures forall f | f in All(c) && c.needs(f) <= s.flagged :: f in s.flagged
  {
    forall f | f in All(c) && c.needs(f) <= s.flagged ensures f in s.flagged {
      assert Tried(c, s, f);
    }
  }

  lemma FlaggedIsInstallable(c: Setup, s: State, f: nat)
    requires Inv(c, s) && f in s.flagged
    ensures Installable(c, f)
  {
    assert f in Elements(s.made);
  }

  lemma InstallableIsFlagged(c: Setup, s: State, f: nat)
    requires Inv(c, s) && s.phase.Finished? && Installable(c, f)
    ensures f in s.flagged
  {
    var p :| Possible(c, p) && f in p;
    FinishedIsClosed(c, s);
    PossibleIsFlagged(c, s.flagged, p, |p|);
    assert p[..|p|] == p && f in Elements(p);
  }

  /** Whatever the number of workers and however they interleave, a run that comes to its end has installed exactly the
      files that can be installed in some order at all. */
  lemma FinishedInstallsAll(c: Setup, steps: seq<Step>, f: nat)
    requires WellFormed(c) && CanRun(c, START, steps) && Run(c, START, steps).phase.Finished?
    ensures f in Run(c, START, steps).flagged <==> Installable(c, f)
  {
    StartInv(c);
    RunKeeps(c, START, steps);
    var s := Run(c, START, steps);
    if f in s.flagged {
      FlaggedIsInstallable(c, s, f);
    }
    if Installable(c, f) {
      InstallableIsFlagged(c, s, f);
    }
  }

  /** The final comparison of the counter with the number of files fails exactly when some file cannot be installed. */
  lemma FailsIffImpossible(c: Setup, steps: seq<Step>)
    requires WellFormed(c) && CanRun(c, START, steps) && Run(c, START, steps).phase.Finished?
    ensures Run(c, START, steps).count < |All(c)| <==> exists f :: f in All(c) && !Installable(c, f)
  {
    var s := Run(c, START, steps);
    EveryRunIsSafe(c, steps);
    SubsetSize(s.flagged, All(c));
    forall f ensures f in s.flagged <==> Installable(c, f) {
      FinishedInstallsAll(c, steps, f);
    }
    if s.count < |All(c)| {
      var f := OneMissing(All(c), s.flagged);
    }
  }

  lemma OneMissing(all: set<nat>, some: set<nat>) returns (f: nat)
    requires |some| < |all|
    ensures f in all && f !in some
  {
    if all <= some {
      SubsetSize(all, some);
    }
    f :| f in all && f !in some;
  }

  // ----- the order of directories -----

  /** compare_dir_order (lines 906-915) puts shorter names first. */
  ghost predicate ShorterFirst(dst: nat -> string, dirs: seq<nat>) {
    forall i, j | 0 <= i < j < |dirs| :: |dst(dirs[i])| <= |dst(dirs[j])|
  }

  predicate Above(a: string, b: string) {
    |a| < |b| && b[..|a|] == a && b[|a|] == '/'
  }

  /** Directories sorted by compare_dir_order can be created one after another when each needs just those of them that
      lie above it. */
  lemma ParentsFirst(c: Setup, dst: nat -> string)
    requires ShorterFirst(dst, c.dirs)
    requires forall d | d in c.dirs :: c.needs(d) == set e | e in c.dirs && Above(dst(e), dst(d))
    ensures Possible(c, c.dirs)
  {
    forall i | 0 <= i < |c.dirs| ensures FitsAt(c, c.dirs, i) {
      forall e | e in c.needs(c.dirs[i]) ensures e in c.dirs[..i] {
        var j :| 0 <= j < |c.dirs| && c.dirs[j] == e;
        assert j < i && c.dirs[..i][j] == e;
      }
    }
  }
}

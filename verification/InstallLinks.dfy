/** Step 3 of an install pass, the hardlinks (utils/initrd-put/initrd-put.c:737-793, 1214-1217): when a link can
    stop the program, for every setup and over all interleavings of the workers. */
module InstallLinks {
  import opened Basics
  import opened Install
  import Classify

  /** The three lists share no file and name none twice; each hardlink's target is one of the files. */
  ghost predicate Partitioned(c: Setup) {
    && Distinct(c.files) && (forall i, j | 0 <= i < j < |c.links| :: c.links[i].0 != c.links[j].0)
    && Elements(c.dirs) !! Elements(c.files) && LinkNames(c.links) !! Elements(c.dirs) + Elements(c.files)
    && forall l | l in c.links :: l.1 in c.files
  }

  /** The file can be created as soon as the directories exist. */
  ghost predicate Early(c: Setup, f: nat) {
    c.needs(f) <= Elements(c.dirs)
  }

  /** n exists whenever the target of hardlink l does, in the link phase of every interleaving: it is a directory, a
      file that can be created as soon as those exist, the target itself or something the target needs. */
  ghost predicate Comes(c: Setup, l: (nat, nat), n: nat) {
    n in c.dirs || (n in c.files && Early(c, n)) || n in c.needs(l.1) + {l.1}
  }

  /** Every hardlink whose target can be installed needs only what comes with the target. */
  ghost predicate LinksReady(c: Setup) {
    forall l, n | l in c.links && Installable(c, l.1) && n in c.needs(l.0) :: Comes(c, l, n)
  }

  // ----- what exists when the hardlinks are made -----

  /** All directories exist once the main thread is past them. */
  ghost predicate DirsMade(c: Setup, s: State) {
    match s.phase
    case Dirs(i) => i <= |c.dirs| && Elements(c.dirs[..i]) <= Elements(s.made)
    case _ => Elements(c.dirs) <= Elements(s.made)
  }

  lemma DirMade(c: Setup, s: State)
    requires s.phase.Dirs? && Counted(s) && DirsMade(c, s) && Possible(c, c.dirs)
    ensures DirsMade(c, ApplyDir(c, s))
  {
    var i := s.phase.i;
    if i >= |c.dirs| {
      assert c.dirs[..i] == c.dirs;
    } else {
      assert FitsAt(c, c.dirs, i) && c.dirs[..i + 1] == c.dirs[..i] + [c.dirs[i]];
      ElementsAppend(c.dirs[..i], c.dirs[i]);
      ElementsAppend(s.made, c.dirs[i]);
    }
  }

  lemma LinkMade(c: Setup, s: State)
    requires s.phase.Links? && DirsMade(c, s)
    ensures DirsMade(c, ApplyLink(c, s))
  {
    if s.phase.i < |c.links| {
      ElementsAppend(s.made, c.links[s.phase.i].0);
    } else {
      assert c.dirs[..0] == [];
    }
  }

  lemma WorkerMade(c: Setup, s: State, step: Step)
    requires s.phase.Pool? && DirsMade(c, s) && Enabled(c, s, step)
    ensures DirsMade(c, Apply(c, s, step))
  {
    if step.Make? {
      ElementsAppend(s.made, s.workers[step.w].file);
    }
  }

  lemma DirsMadeStep(c: Setup, s: State, step: Step)
    requires Counted(s) && DirsMade(c, s) && Enabled(c, s, step) && Possible(c, c.dirs)
    ensures DirsMade(c, Apply(c, s, step))
  {
    match step
    case Dir => DirMade(c, s);
    case Link => LinkMade(c, s);
    case _ => WorkerMade(c, s, step);
  }

  ghost predicate EarlyIn(c: Setup, fs: seq<nat>, found: set<nat>) {
    forall f {:trigger Early(c, f)} | f in fs && Early(c, f) :: f in found
  }

  /** The workers have, or have created, every early file they are past; all of them exist when the links are made. */
  ghost predicate EarlyDone(c: Setup, s: State) {
    match s.phase
    case Pool => s.next <= |c.files| && EarlyIn(c, c.files[..s.next], s.flagged + Hands(s.workers))
    case Links(_) => EarlyIn(c, c.files, s.flagged)
    case _ => true
  }

  lemma EarlySkips(c: Setup, files: seq<nat>, from: nat, k: nat, flagged: set<nat>, found: set<nat>)
    requires from <= k <= |files| && EarlyIn(c, files[..from], found) && flagged <= found
    requires forall i | from <= i < k :: files[i] in flagged
    ensures EarlyIn(c, files[..k], found)
  {
    ScanBehind(files, from, k, flagged);
    forall f | f in files[..k] && Early(c, f) ensures f in found {
      assert f in Elements(files[..k]);
    }
  }

  lemma EarlyTakes(c: Setup, files: seq<nat>, k: nat, found: set<nat>)
    requires k < |files| && EarlyIn(c, files[..k], found)
    ensures EarlyIn(c, files[..k + 1], found + {files[k]})
  {
    assert files[..k + 1] == files[..k] + [files[k]];
  }

  lemma EarlyTaken(c: Setup, s: State, w: nat, k: nat)
    requires Distinct(c.files) && Exclusive(s) && Claims(c, s) && s.phase.Pool? && w < |s.workers| && s.workers[w].Idle?
    requires s.next <= k < |c.files| && EarlyIn(c, c.files[..k], s.flagged + Hands(s.workers))
    ensures EarlyDone(c, Taken(s, w, k, c.files[k]))
  {
    TakenHands(c, s, w, k);
    EarlyTakes(c, c.files, k, s.flagged + Hands(s.workers));
    assert s.flagged + Hands(s.workers) + {c.files[k]} == s.flagged + (Hands(s.workers) + {c.files[k]});
  }

  lemma EarlyLeft(c: Setup, s: State, w: nat, k: nat)
    requires Exclusive(s) && s.phase.Pool? && w < |s.workers| && s.workers[w].Idle? && k == |c.files|
    requires EarlyIn(c, c.files[..k], s.flagged + Hands(s.workers))
    ensures EarlyDone(c, Left(s, w, k))
  {
    LeftHands(s, w);
  }

  lemma EarlyClaim(c: Setup, s: State, w: nat)
    requires Distinct(c.files) && Exclusive(s) && Claims(c, s) && EarlyDone(c, s) && Enabled(c, s, Claim(w))
    ensures EarlyDone(c, ApplyClaim(c, s, w))
  {
    var k := Scan(c.files, s.flagged, s.next);
    EarlySkips(c, c.files, s.next, k, s.flagged, s.flagged + Hands(s.workers));
    if k < |c.files| {
      EarlyTaken(c, s, w, k);
    } else {
      EarlyLeft(c, s, w, k);
    }
  }

  lemma EarlyMake(c: Setup, s: State, w: nat)
    requires Counted(s) && Exclusive(s) && DirsMade(c, s) && EarlyDone(c, s) && Enabled(c, s, Make(w))
    ensures EarlyDone(c, Apply(c, s, Make(w)))
  {
    var f := s.workers[w].file;
    if CanMake(c, s.made, f) {
      CreatedCounted(s, w, f);
    } else {
      GivenUpCounted(s, w, f);
      assert !Early(c, f);
    }
  }

  lemma EarlyFlag(c: Setup, s: State, w: nat)
    requires Counted(s) && Exclusive(s) && EarlyDone(c, s) && Enabled(c, s, Flag(w))
    ensures EarlyDone(c, Apply(c, s, Flag(w)))
  {
    MarkedCounted(s, w, s.workers[w].file);
  }

  lemma EarlyJoin(c: Setup, s: State)
    requires Inv(c, s) && EarlyDone(c, s) && Enabled(c, s, Join)
    ensures EarlyDone(c, Apply(c, s, Join))
  {
    GoneHands(s.workers);
    assert s.workers[0].Gone? && c.files[..|c.files|] == c.files;
  }

  lemma EarlyStep(c: Setup, s: State, step: Step)
    requires WellFormed(c) && Inv(c, s) && DirsMade(c, s) && EarlyDone(c, s) && Enabled(c, s, step)
    ensures EarlyDone(c, Apply(c, s, step))
  {
    match step
    case Dir =>
      assert c.files[..0] == [];
    case Claim(w) => EarlyClaim(c, s, w);
    case Make(w) => EarlyMake(c, s, w);
    case Flag(w) => EarlyFlag(c, s, w);
    case Join => EarlyJoin(c, s);
    case Link =>
  }

  /** What every state has when the directories are in an order that lets them all be made. */
  ghost predicate Steady(c: Setup, s: State) {
    Inv(c, s) && DirsMade(c, s) && EarlyDone(c, s)
  }

  lemma SteadyStep(c: Setup, s: State, step: Step)
    requires WellFormed(c) && Possible(c, c.dirs) && Steady(c, s) && Enabled(c, s, step)
    ensures Steady(c, Apply(c, s, step))
  {
    StepKeeps(c, s, step);
    DirsMadeStep(c, s, step);
    EarlyStep(c, s, step);
  }

  lemma {:induction false} SteadyRun(c: Setup, s: State, steps: seq<Step>)
    requires WellFormed(c) && Possible(c, c.dirs) && Steady(c, s) && CanRun(c, s, steps)
    ensures Steady(c, Run(c, s, steps))
    decreases |steps|
  {
    if steps != [] {
      SteadyStep(c, s, steps[0]);
      SteadyRun(c, Apply(c, s, steps[0]), steps[1..]);
    }
  }

  lemma SteadyStart(c: Setup)
    ensures Steady(c, START)
  {
    StartInv(c);
    assert c.dirs[..0] == [];
  }

  // ----- when no hardlink stops the program -----

  lemma MadeWithNeeds(c: Setup, made: seq<nat>, f: nat)
    requires Possible(c, made) && f in made
    ensures c.needs(f) <= Elements(made)
  {
    var i :| 0 <= i < |made| && made[i] == f;
    assert FitsAt(c, made, i);
    forall n | n in Elements(made[..i]) ensures n in made {
    }
  }

  lemma ReadyLink(c: Setup, s: State)
    requires Steady(c, s) && s.phase.Links? && s.phase.i < |c.links| && LinksReady(c) && c.links[s.phase.i].1 in s.flagged
    ensures CanMake(c, s.made, c.links[s.phase.i].0)
  {
    var l := c.links[s.phase.i];
    assert l in c.links && l.1 in Elements(s.made);
    FlaggedIsInstallable(c, s, l.1);
    MadeWithNeeds(c, s.made, l.1);
    forall n | n in c.needs(l.0) ensures n in Elements(s.made) {
      assert Comes(c, l, n);
    }
  }

  lemma OnlyLinksStop(c: Setup, s: State, step: Step)
    requires Enabled(c, s, step) && !s.phase.Fatal? && Apply(c, s, step).phase.Fatal?
    ensures s.phase.Links? && s.phase.i < |c.links| && !CanMake(c, s.made, c.links[s.phase.i].0) && c.links[s.phase.i].1 in s.flagged
  {
  }

  lemma ReadyStep(c: Setup, s: State, step: Step)
    requires Steady(c, s) && Enabled(c, s, step) && LinksReady(c) && !s.phase.Fatal?
    ensures !Apply(c, s, step).phase.Fatal?
  {
    if Apply(c, s, step).phase.Fatal? {
      OnlyLinksStop(c, s, step);
      ReadyLink(c, s);
    }
  }

  lemma {:induction false} ReadyRun(c: Setup, s: State, steps: seq<Step>)
    requires WellFormed(c) && Possible(c, c.dirs) && Steady(c, s) && CanRun(c, s, steps) && LinksReady(c) && !s.phase.Fatal?
    ensures !Run(c, s, steps).phase.Fatal?
    decreases |steps|
  {
    if steps != [] {
      SteadyStep(c, s, steps[0]);
      ReadyStep(c, s, steps[0]);
      ReadyRun(c, Apply(c, s, steps[0]), steps[1..]);
    }
  }

  /** When every hardlink needs only what comes with its target, no interleaving stops at a hardlink. */
  lemma LinksNeverStop(c: Setup, steps: seq<Step>)
    requires WellFormed(c) && CanRun(c, START, steps) && Possible(c, c.dirs) && LinksReady(c)
    ensures !Run(c, START, steps).phase.Fatal?
  {
    SteadyStart(c);
    ReadyRun(c, START, steps);
  }

  // ----- when some interleaving does -----

  ghost predicate Leads(c: Setup, s: State, steps: seq<Step>, t: State) {
    CanRun(c, s, steps) && Run(c, s, steps) == t
  }

  lemma LeadsOne(c: Setup, s: State, step: Step)
    requires Enabled(c, s, step)
    ensures Leads(c, s, [step], Apply(c, s, step))
  {
    assert [step][1..] == [];
  }

  lemma {:induction false} LeadsOn(c: Setup, s: State, steps: seq<Step>, t: State, more: seq<Step>, u: State)
    requires Leads(c, s, steps, t) && Leads(c, t, more, u)
    ensures Leads(c, s, steps + more, u)
    decreases |steps|
  {
    if steps == [] {
      assert steps + more == more;
    } else {
      assert (steps + more)[1..] == steps[1..] + more;
      LeadsOn(c, Apply(c, s, steps[0]), steps[1..], t, more, u);
    }
  }

  /** Files m and n are not created; what is flagged are directories and files. */
  ghost predicate Missing(c: Setup, s: State, m: nat, n: nat) {
    m !in s.made && n !in s.made && s.flagged <= Elements(c.dirs) + Elements(c.files)
  }

  lemma {:induction false} PassDirs(c: Setup, s: State, m: nat, n: nat) returns (steps: seq<Step>, t: State)
    requires s.phase.Dirs? && m !in c.dirs && n !in c.dirs && s.flagged <= Elements(c.dirs) && Missing(c, s, m, n)
    ensures Leads(c, s, steps, t) && t.phase.Pool? && t.next == 0 && t.workers == seq(c.jobs, _ => Idle)
    ensures t.flagged <= Elements(c.dirs) && Missing(c, t, m, n)
    decreases if s.phase.i < |c.dirs| then |c.dirs| - s.phase.i else 0
  {
    LeadsOne(c, s, Dir);
    var s' := ApplyDir(c, s);
    if s.phase.i >= |c.dirs| {
      steps, t := [Dir], s';
    } else {
      assert c.dirs[s.phase.i] in c.dirs;
      var more;
      more, t := PassDirs(c, s', m, n);
      LeadsOn(c, s, [Dir], s', more, t);
      steps := [Dir] + more;
    }
  }

  /** The workers are past the first k files.  Worker 0 has claimed m if it is among these and holds it; the others
      are idle, and neither m nor n is created. */
  ghost predicate HoldsBack(c: Setup, s: State, k: nat, m: nat, n: nat) {
    && s.phase.Pool? && s.next == k <= |c.files| && |s.workers| >= 2 && Missing(c, s, m, n)
    && s.workers[0] == (if m in c.files[..k] then Holds(m) else Idle)
    && (forall w | 1 <= w < |s.workers| :: s.workers[w].Idle?)
    && s.flagged !! Elements(c.files[k..])
  }

  lemma NextIs(c: Setup, s: State, k: nat, m: nat, n: nat)
    requires HoldsBack(c, s, k, m, n) && k < |c.files|
    ensures Scan(c.files, s.flagged, k) == k
  {
    assert c.files[k] == c.files[k..][0];
  }

  lemma Rest(c: Setup, k: nat)
    requires Distinct(c.files) && k < |c.files|
    ensures Elements(c.files[k + 1..]) <= Elements(c.files[k..]) && c.files[k] !in Elements(c.files[k + 1..])
    ensures forall m :: m in c.files[..k + 1] <==> m in c.files[..k] || m == c.files[k]
    ensures c.files[k] !in c.files[..k]
  {
    assert c.files[..k + 1] == c.files[..k] + [c.files[k]];
    assert c.files[k..] == [c.files[k]] + c.files[k + 1..];
  }

  /** Worker 0 takes m and holds it. */
  lemma TakeBack(c: Setup, s: State, k: nat, m: nat, n: nat) returns (t: State)
    requires Distinct(c.files) && HoldsBack(c, s, k, m, n) && k < |c.files| && c.files[k] == m
    ensures Leads(c, s, [Claim(0)], t) && HoldsBack(c, t, k + 1, m, n)
  {
    NextIs(c, s, k, m, n);
    Rest(c, k);
    t := Taken(s, 0, k, m);
    LeadsOne(c, s, Claim(0));
  }

  /** Worker 1 creates the next file, or gives it up. */
  ghost function Served(c: Setup, s: State, k: nat): State
    requires k < |c.files| && |s.workers| >= 2
  {
    var s1 := Taken(s, 1, k, c.files[k]);
    if CanMake(c, s.made, c.files[k]) then Marked(Created(s1, 1, c.files[k]), 1, c.files[k]) else GivenUp(s1, 1)
  }

  lemma ServeSteps(c: Setup, s: State, k: nat, m: nat, n: nat) returns (steps: seq<Step>)
    requires HoldsBack(c, s, k, m, n) && k < |c.files|
    ensures Leads(c, s, steps, Served(c, s, k))
  {
    var f := c.files[k];
    NextIs(c, s, k, m, n);
    var s1 := Taken(s, 1, k, f);
    LeadsOne(c, s, Claim(1));
    LeadsOne(c, s1, Make(1));
    steps := [Claim(1)] + [Make(1)];
    if CanMake(c, s.made, f) {
      var s2 := Created(s1, 1, f);
      LeadsOn(c, s, [Claim(1)], s1, [Make(1)], s2);
      LeadsOne(c, s2, Flag(1));
      LeadsOn(c, s, steps, s2, [Flag(1)], Served(c, s, k));
      steps := steps + [Flag(1)];
    } else {
      LeadsOn(c, s, [Claim(1)], s1, [Make(1)], Served(c, s, k));
    }
  }

  lemma ServedHoldsBack(c: Setup, s: State, k: nat, m: nat, n: nat)
    requires Distinct(c.files) && HoldsBack(c, s, k, m, n) && k < |c.files| && c.files[k] != m && (n in c.files ==> m in c.needs(n))
    ensures HoldsBack(c, Served(c, s, k), k + 1, m, n)
  {
    Rest(c, k);
    assert c.files[k] in c.files;
    assert CanMake(c, s.made, c.files[k]) ==> c.files[k] != n;
  }

  /** All files can be passed with m held back, so that n, which needs m, is given up. */
  lemma {:induction false} PassFiles(c: Setup, s: State, k: nat, m: nat, n: nat) returns (steps: seq<Step>, t: State)
    requires Distinct(c.files) && HoldsBack(c, s, k, m, n) && (n in c.files ==> m in c.needs(n))
    ensures Leads(c, s, steps, t) && HoldsBack(c, t, |c.files|, m, n)
    decreases |c.files| - k
  {
    if k == |c.files| {
      steps, t := [], s;
    } else {
      var s', first;
      if c.files[k] == m {
        s' := TakeBack(c, s, k, m, n);
        first := [Claim(0)];
      } else {
        s' := Served(c, s, k);
        first := ServeSteps(c, s, k, m, n);
        ServedHoldsBack(c, s, k, m, n);
      }
      var more;
      more, t := PassFiles(c, s', k + 1, m, n);
      LeadsOn(c, s, first, s', more, t);
      steps := first + more;
    }
  }

  /** Nothing is left to claim and no worker has a file; n is not created. */
  ghost predicate AllIdle(c: Setup, s: State, n: nat) {
    && s.phase.Pool? && s.next == |c.files| && n !in s.made && s.flagged <= Elements(c.dirs) + Elements(c.files)
    && forall w | 0 <= w < |s.workers| :: s.workers[w].Idle? || s.workers[w].Gone?
  }

  /** Now worker 0 creates m, or gives it up; n is not created in this pass any more. */
  lemma LetGo(c: Setup, s: State, m: nat, n: nat) returns (steps: seq<Step>, t: State)
    requires HoldsBack(c, s, |c.files|, m, n) && (n in c.files ==> m in c.needs(n))
    ensures Leads(c, s, steps, t) && AllIdle(c, t, n)
  {
    assert c.files[..|c.files|] == c.files;
    if m !in c.files {
      steps, t := [], s;
    } else if CanMake(c, s.made, m) {
      var s1 := Created(s, 0, m);
      LeadsOne(c, s, Make(0));
      t := Marked(s1, 0, m);
      LeadsOne(c, s1, Flag(0));
      LeadsOn(c, s, [Make(0)], s1, [Flag(0)], t);
      steps := [Make(0)] + [Flag(0)];
    } else {
      t := GivenUp(s, 0);
      LeadsOne(c, s, Make(0));
      steps := [Make(0)];
    }
  }

  /** Worker w and those after it leave. */
  lemma {:induction false} LeaveAll(c: Setup, s: State, w: nat, n: nat) returns (steps: seq<Step>, t: State)
    requires AllIdle(c, s, n) && w <= |s.workers| && forall v | 0 <= v < w :: s.workers[v].Gone?
    ensures Leads(c, s, steps, t) && t.phase == Links(0) && n !in t.made && t.flagged == s.flagged && t.made == s.made
    decreases |s.workers| - w
  {
    if w == |s.workers| {
      LeadsOne(c, s, Join);
      steps, t := [Join], s.(phase := Links(0));
    } else if s.workers[w].Gone? {
      steps, t := LeaveAll(c, s, w + 1, n);
    } else {
      var s' := Left(s, w, |c.files|);
      LeadsOne(c, s, Claim(w));
      var more;
      more, t := LeaveAll(c, s', w + 1, n);
      LeadsOn(c, s, [Claim(w)], s', more, t);
      steps := [Claim(w)] + more;
    }
  }

  /** From hardlink i on to hardlink k, which needs n and whose target is installed: the program stops there at the latest. */
  lemma {:induction false} StopAt(c: Setup, s: State, k: nat, n: nat) returns (steps: seq<Step>, t: State)
    requires Partitioned(c) && s.phase.Links? && s.phase.i <= k < |c.links| && n in c.needs(c.links[k].0) && n !in LinkNames(c.links)
    requires n !in s.made && c.links[k].0 !in s.flagged && c.links[k].1 in s.flagged
    ensures Leads(c, s, steps, t) && t.phase.Fatal?
    decreases k - s.phase.i
  {
    var s' := ApplyLink(c, s);
    LeadsOne(c, s, Link);
    if s'.phase.Fatal? {
      steps, t := [Link], s';
    } else {
      assert c.links[s.phase.i] in c.links;
      var more;
      more, t := StopAt(c, s', k, n);
      LeadsOn(c, s, [Link], s', more, t);
      steps := [Link] + more;
    }
  }

  lemma PoolHoldsBack(c: Setup, s: State, m: nat, n: nat)
    requires Partitioned(c) && c.jobs >= 2 && s.phase.Pool? && s.next == 0 && s.workers == seq(c.jobs, _ => Idle)
    requires s.flagged <= Elements(c.dirs) && Missing(c, s, m, n)
    ensures HoldsBack(c, s, 0, m, n)
  {
    assert c.files[0..] == c.files && c.files[..0] == [];
  }

  /** A run of the first pass up to the hardlinks in which n is not created. */
  lemma PassWithout(c: Setup, m: nat, n: nat) returns (steps: seq<Step>, t: State)
    requires Partitioned(c) && c.jobs >= 2 && m !in c.dirs && n !in c.dirs && (n in c.files ==> m in c.needs(n))
    ensures Leads(c, START, steps, t) && t.phase == Links(0) && n !in t.made && t.flagged <= Elements(c.dirs) + Elements(c.files)
  {
    var a, s1 := PassDirs(c, START, m, n);
    PoolHoldsBack(c, s1, m, n);
    var b, s2 := PassFiles(c, s1, 0, m, n);
    LeadsOn(c, START, a, s1, b, s2);
    var d, s3 := LetGo(c, s2, m, n);
    LeadsOn(c, START, a + b, s2, d, s3);
    var e;
    e, t := LeaveAll(c, s3, 0, n);
    LeadsOn(c, START, a + b + d, s3, e, t);
    steps := a + b + d + e;
  }

  /** No path of a hardlink or of its target runs through a hardlink. */
  ghost predicate Ordinary(c: Setup) {
    && WellFormed(c) && Partitioned(c) && Possible(c, c.dirs)
    && forall l | l in c.links :: c.needs(l.0) + c.needs(l.1) !! LinkNames(c.links)
  }

  /** The targets can be created as soon as the directories exist. */
  ghost predicate EarlyTargets(c: Setup) {
    forall l | l in c.links :: Early(c, l.1)
  }

  lemma TargetInstalled(c: Setup, s: State, k: nat)
    requires Ordinary(c) && EarlyTargets(c) && Steady(c, s) && s.phase == Links(0) && k < |c.links|
    requires s.flagged <= Elements(c.dirs) + Elements(c.files)
    ensures c.links[k].0 !in s.flagged && c.links[k].1 in s.flagged
  {
    assert c.links[k] in c.links;
    assert c.links[k].0 in LinkNames(c.links);
  }

  lemma StopsEarly(c: Setup, k: nat, n: nat) returns (steps: seq<Step>)
    requires Ordinary(c) && EarlyTargets(c) && c.jobs >= 2
    requires k < |c.links| && n in c.needs(c.links[k].0) && n !in c.dirs && (n in c.files ==> !Early(c, n))
    ensures CanRun(c, START, steps) && Run(c, START, steps).phase.Fatal?
  {
    var m := n;
    if n in c.files {
      m :| m in c.needs(n) && m !in Elements(c.dirs);
    }
    var a, s := PassWithout(c, m, n);
    SteadyStart(c);
    SteadyRun(c, START, a);
    TargetInstalled(c, s, k);
    assert c.links[k] in c.links;
    var b, t := StopAt(c, s, k, n);
    LeadsOn(c, START, a, s, b, t);
    steps := a + b;
  }

  // ----- with a worker for every file -----

  /** Workers 0 to k - 1 have claimed the first k files, the others are idle, and n is not created. */
  ghost predicate HandedOut(c: Setup, s: State, k: nat, n: nat) {
    && s.phase.Pool? && s.next == k <= |c.files| <= |s.workers| && n !in s.made
    && s.flagged <= Elements(c.dirs) && s.flagged !! Elements(c.files[k..])
    && (forall j | 0 <= j < k :: s.workers[j] == Holds(c.files[j]))
    && forall j | k <= j < |s.workers| :: s.workers[j].Idle?
  }

  lemma {:induction false} ClaimAll(c: Setup, s: State, k: nat, n: nat) returns (steps: seq<Step>, t: State)
    requires Distinct(c.files) && HandedOut(c, s, k, n)
    ensures Leads(c, s, steps, t) && HandedOut(c, t, |c.files|, n) && t.made == s.made
    decreases |c.files| - k
  {
    if k == |c.files| {
      steps, t := [], s;
    } else {
      assert c.files[k] == c.files[k..][0];
      Rest(c, k);
      var s' := Taken(s, k, k, c.files[k]);
      LeadsOne(c, s, Claim(k));
      var more;
      more, t := ClaimAll(c, s', k + 1, n);
      LeadsOn(c, s, [Claim(k)], s', more, t);
      steps := [Claim(k)] + more;
    }
  }

  /** Each worker below |files| holds its file or has created it; the worker of n has given it up. */
  ghost predicate WithoutN(c: Setup, s: State, n: nat) {
    && s.phase.Pool? && s.next == |c.files| <= |s.workers| && n !in s.made && s.flagged <= Elements(c.dirs)
    && (forall j | 0 <= j < |c.files| ::
          if c.files[j] == n then s.workers[j].Idle?
          else s.workers[j] == Holds(c.files[j]) || (s.workers[j] == Made(c.files[j]) && c.files[j] in s.made))
    && forall j | |c.files| <= j < |s.workers| :: s.workers[j].Idle?
  }

  /** n is tried before anything it needs exists. */
  lemma GiveUp(c: Setup, s: State, n: nat) returns (steps: seq<Step>, t: State)
    requires Distinct(c.files) && HandedOut(c, s, |c.files|, n) && (n in c.files ==> !CanMake(c, s.made, n))
    ensures Leads(c, s, steps, t) && WithoutN(c, t, n) && t.made == s.made
  {
    if n in c.files {
      var j :| 0 <= j < |c.files| && c.files[j] == n;
      LeadsOne(c, s, Make(j));
      steps, t := [Make(j)], GivenUp(s, j);
    } else {
      steps, t := [], s;
    }
  }

  lemma MakeHeld(c: Setup, s: State, n: nat, f: nat) returns (steps: seq<Step>, t: State)
    requires Distinct(c.files) && WithoutN(c, s, n) && f in c.files && f != n && f !in s.made && CanMake(c, s.made, f)
    ensures Leads(c, s, steps, t) && WithoutN(c, t, n) && t.made == s.made + [f]
  {
    var j :| 0 <= j < |c.files| && c.files[j] == f;
    assert s.workers[j] == Holds(f);
    LeadsOne(c, s, Make(j));
    steps, t := [Make(j)], Created(s, j, f);
  }

  /** What something needs, whatever it needs itself is needed too. */
  ghost predicate NeedsClosed(c: Setup) {
    forall f, n | f in All(c) && n in c.needs(f) :: c.needs(n) <= c.needs(f)
  }

  /** Of the first i entries of p, those that t needs, and t itself, exist. */
  ghost predicate NeedsDone(c: Setup, s: State, t: nat, p: seq<nat>, i: nat) {
    i <= |p| && forall x | x in p[..i] && x in c.needs(t) + {t} :: x in s.made
  }

  lemma NeedsNow(c: Setup, s: State, t: nat, p: seq<nat>, i: nat)
    requires NeedsClosed(c) && Possible(c, p) && i < |p| && NeedsDone(c, s, t, p, i) && t in c.files && p[i] in c.needs(t) + {t}
    ensures CanMake(c, s.made, p[i])
  {
    assert FitsAt(c, p, i);
    forall x | x in c.needs(p[i]) ensures x in Elements(s.made) {
      assert x in Elements(p[..i]);
      assert x in p[..i] && x in c.needs(t) + {t};
    }
  }

  lemma NeedsNext(c: Setup, s: State, s': State, t: nat, p: seq<nat>, i: nat)
    requires i < |p| && NeedsDone(c, s, t, p, i) && (forall x | x in s.made :: x in s'.made)
    requires p[i] in c.needs(t) + {t} ==> p[i] in s'.made
    ensures NeedsDone(c, s', t, p, i + 1)
  {
    assert p[..i + 1] == p[..i] + [p[i]];
  }

  /** t and what it needs are created, in an order in which that is possible. */
  lemma {:induction false} MakeNeeds(c: Setup, s: State, n: nat, t: nat, p: seq<nat>, i: nat) returns (steps: seq<Step>, u: State)
    requires Distinct(c.files) && WithoutN(c, s, n) && NeedsClosed(c) && Possible(c, p) && NeedsDone(c, s, t, p, i)
    requires t in c.files && n !in c.needs(t) + {t} && c.needs(t) + {t} !! LinkNames(c.links) && Elements(c.dirs) <= Elements(s.made)
    ensures Leads(c, s, steps, u) && WithoutN(c, u, n) && NeedsDone(c, u, t, p, |p|)
    decreases |p| - i
  {
    if i == |p| {
      steps, u := [], s;
    } else {
      var first, s' := [], s;
      if p[i] in c.needs(t) + {t} && p[i] !in s.made {
        assert FitsAt(c, p, i);
        NeedsNow(c, s, t, p, i);
        first, s' := MakeHeld(c, s, n, p[i]);
      }
      NeedsNext(c, s, s', t, p, i);
      var more;
      more, u := MakeNeeds(c, s', n, t, p, i + 1);
      LeadsOn(c, s, first, s', more, u);
      steps := first + more;
    }
  }

  /** Workers below k are idle; the others are as above. */
  ghost predicate Flushing(c: Setup, s: State, k: nat, n: nat) {
    && s.phase.Pool? && s.next == |c.files| && k <= |s.workers| && n !in s.made && s.flagged <= Elements(c.dirs) + Elements(c.files)
    && (forall j | 0 <= j < k :: s.workers[j].Idle?)
    && forall j | k <= j < |s.workers| ::
         s.workers[j].Idle? || ((s.workers[j].Holds? || s.workers[j].Made?) && s.workers[j].file != n && s.workers[j].file in c.files)
  }

  lemma WithoutNFlushes(c: Setup, s: State, n: nat)
    requires WithoutN(c, s, n)
    ensures Flushing(c, s, 0, n)
  {
    forall j | 0 <= j < |c.files| ensures c.files[j] in c.files {
    }
  }

  /** Worker k ends its file, if it has one. */
  lemma FlushOne(c: Setup, s: State, k: nat, n: nat) returns (steps: seq<Step>, t: State)
    requires Flushing(c, s, k, n) && k < |s.workers|
    ensures Leads(c, s, steps, t) && Flushing(c, t, k + 1, n) && |t.workers| == |s.workers| && forall x | x in s.made :: x in t.made
  {
    if s.workers[k].Idle? {
      steps, t := [], s;
    } else {
      var f, s1, first := s.workers[k].file, s, [];
      if s.workers[k].Holds? {
        LeadsOne(c, s, Make(k));
        s1, first := if CanMake(c, s.made, f) then Created(s, k, f) else GivenUp(s, k), [Make(k)];
      }
      if s1.workers[k].Made? {
        LeadsOne(c, s1, Flag(k));
        t := Marked(s1, k, f);
        LeadsOn(c, s, first, s1, [Flag(k)], t);
        steps := first + [Flag(k)];
      } else {
        steps, t := first, s1;
      }
    }
  }

  lemma {:induction false} FlushAll(c: Setup, s: State, k: nat, n: nat) returns (steps: seq<Step>, t: State)
    requires Flushing(c, s, k, n)
    ensures Leads(c, s, steps, t) && AllIdle(c, t, n) && forall x | x in s.made :: x in t.made
    decreases |s.workers| - k
  {
    if k == |s.workers| {
      steps, t := [], s;
    } else {
      var first, s' := FlushOne(c, s, k, n);
      var more;
      more, t := FlushAll(c, s', k + 1, n);
      LeadsOn(c, s, first, s', more, t);
      steps := first + more;
    }
  }

  lemma PoolHandsOut(c: Setup, s: State, n: nat)
    requires Partitioned(c) && c.jobs >= |c.files| && s.phase.Pool? && s.next == 0 && s.workers == seq(c.jobs, _ => Idle)
    requires s.flagged <= Elements(c.dirs) && n !in s.made
    ensures HandedOut(c, s, 0, n)
  {
    assert c.files[0..] == c.files;
  }

  /** The pool with every file in a worker's hand, n given up and only directories created. */
  lemma HandOut(c: Setup, m: nat, n: nat) returns (steps: seq<Step>, t: State)
    requires WellFormed(c) && Partitioned(c) && Possible(c, c.dirs) && c.jobs >= |c.files| && m !in c.dirs && n !in c.dirs
    requires n in c.files ==> m in c.needs(n)
    ensures Leads(c, START, steps, t) && WithoutN(c, t, n) && Elements(c.dirs) <= Elements(t.made)
  {
    var a, s1 := PassDirs(c, START, m, n);
    PoolHandsOut(c, s1, n);
    var b, s2 := ClaimAll(c, s1, 0, n);
    LeadsOn(c, START, a, s1, b, s2);
    var d;
    d, t := GiveUp(c, s2, n);
    LeadsOn(c, START, a + b, s2, d, t);
    steps := a + b + d;
    SteadyStart(c);
    SteadyRun(c, START, steps);
  }

  /** A run of the first pass up to the hardlinks in which t is installed and n is not created. */
  lemma PassWith(c: Setup, m: nat, n: nat, t: nat, p: seq<nat>) returns (steps: seq<Step>, u: State)
    requires WellFormed(c) && Partitioned(c) && Possible(c, c.dirs) && NeedsClosed(c) && c.jobs >= |c.files|
    requires m !in c.dirs && n !in c.dirs && (n in c.files ==> m in c.needs(n))
    requires t in c.files && n !in c.needs(t) + {t} && c.needs(t) !! LinkNames(c.links) && Possible(c, p) && t in p
    ensures Leads(c, START, steps, u) && u.phase == Links(0) && n !in u.made && t in u.made
    ensures u.flagged <= Elements(c.dirs) + Elements(c.files)
  {
    var a, s1 := HandOut(c, m, n);
    assert t in Elements(c.files);
    var b, s2 := MakeNeeds(c, s1, n, t, p, 0);
    LeadsOn(c, START, a, s1, b, s2);
    assert p[..|p|] == p && t in s2.made;
    WithoutNFlushes(c, s2, n);
    var d, s3 := FlushAll(c, s2, 0, n);
    LeadsOn(c, START, a + b, s2, d, s3);
    var e;
    e, u := LeaveAll(c, s3, 0, n);
    LeadsOn(c, START, a + b + d, s3, e, u);
    steps := a + b + d + e;
  }

  lemma MadeIsFlagged(c: Setup, s: State, t: nat)
    requires Inv(c, s) && s.phase.Links? && t in s.made
    ensures t in s.flagged
  {
    NothingMade(s.workers);
    assert t in Elements(s.made);
  }

  lemma StopsWithAll(c: Setup, k: nat, n: nat) returns (steps: seq<Step>)
    requires Ordinary(c) && NeedsClosed(c) && c.jobs >= |c.files| && k < |c.links| && Installable(c, c.links[k].1)
    requires n in c.needs(c.links[k].0) && !Comes(c, c.links[k], n)
    ensures CanRun(c, START, steps) && Run(c, START, steps).phase.Fatal?
  {
    var l, m := c.links[k], n;
    assert l in c.links;
    if n in c.files {
      m :| m in c.needs(n) && m !in Elements(c.dirs);
    }
    var p :| Possible(c, p) && l.1 in p;
    var a, s := PassWith(c, m, n, l.1, p);
    SteadyStart(c);
    SteadyRun(c, START, a);
    MadeIsFlagged(c, s, l.1);
    assert l.0 in LinkNames(c.links);
    var b, t := StopAt(c, s, k, n);
    LeadsOn(c, START, a, s, b, t);
    steps := a + b;
  }

  // ----- the exact condition -----

  /** Some interleaving of the workers makes the program stop at a hardlink. */
  ghost predicate CanStop(c: Setup) {
    exists steps :: CanRun(c, START, steps) && Run(c, START, steps).phase.Fatal?
  }

  /** Two workers, when the targets need directories only; otherwise a worker for every file. */
  ghost predicate EnoughWorkers(c: Setup) {
    (EarlyTargets(c) && c.jobs >= 2) || (NeedsClosed(c) && c.jobs >= |c.files|)
  }

  lemma UnreadyStops(c: Setup, l: (nat, nat), n: nat)
    requires Ordinary(c) && EnoughWorkers(c) && l in c.links && Installable(c, l.1) && n in c.needs(l.0) && !Comes(c, l, n)
    ensures CanStop(c)
  {
    var k :| 0 <= k < |c.links| && c.links[k] == l;
    if EarlyTargets(c) && c.jobs >= 2 {
      var steps := StopsEarly(c, k, n);
    } else {
      var steps := StopsWithAll(c, k, n);
    }
  }

  /** With enough workers, and with no path through a hardlink: some interleaving stops the program at a hardlink if and
      only if some hardlink, whose target can be installed, needs something that is no directory, no file that needs
      directories only, and nothing that the target needs. */
  lemma LinksStopIffNotReady(c: Setup)
    requires Ordinary(c) && EnoughWorkers(c)
    ensures CanStop(c) <==> !LinksReady(c)
  {
    if LinksReady(c) {
      forall steps | CanRun(c, START, steps) ensures !Run(c, START, steps).phase.Fatal? {
        LinksNeverStop(c, steps);
      }
    } else {
      var l, n :| l in c.links && Installable(c, l.1) && n in c.needs(l.0) && !Comes(c, l, n);
      UnreadyStops(c, l, n);
    }
  }

  // ----- a setup with such a hardlink -----

  /** Directories /d and /e, link /a to the first, link /a/b to the second, a regular file /f, and a hardlink to it at
      /a/b/h. */
  const PATHS: seq<string> := ["/d", "/e", "/a", "/a/b", "/f", "/a/b/h"]

  const LEADS: map<nat, nat> := map[2 := 0, 3 := 1]

  /** The entries above one, and the directories that the links among these lead to. */
  function EntriesAbove(f: nat): set<nat> {
    set e | 0 <= e < |PATHS| && f < |PATHS| && Above(PATHS[e], PATHS[f])
  }

  function WithLeads(above: set<nat>): set<nat> {
    above + set e | e in above && e in LEADS :: LEADS[e]
  }

  const RACE: Setup := Setup([0, 1], [2, 3, 4], [(5, 4)], f => WithLeads(EntriesAbove(f)), 2)

  lemma RaceAbove()
    ensures EntriesAbove(0) == EntriesAbove(1) == EntriesAbove(2) == EntriesAbove(4) == {}
    ensures EntriesAbove(3) == {2} && EntriesAbove(5) == {2, 3}
  {
    assert "/a/b"[..2] == "/a" && "/a/b/h"[..2] == "/a" && "/a/b/h"[..4] == "/a/b";
    forall e, f | 0 <= e < 6 && 0 <= f < 6 && Above(PATHS[e], PATHS[f]) ensures (e, f) in {(2, 3), (2, 5), (3, 5)} {
      assert PATHS[f][1] == PATHS[e][1];
    }
  }

  lemma RaceLeads()
    ensures WithLeads({}) == {} && WithLeads({2}) == {0, 2} && WithLeads({2, 3}) == {0, 1, 2, 3}
  {
    assert 2 in {2} && 2 in {2, 3} && 3 in {2, 3} && LEADS[2] == 0 && LEADS[3] == 1;
  }

  /** A setup of this form: 3 lies behind link 2, and hardlink 5 to 4 behind both. */
  ghost predicate RaceForm(c: Setup) {
    && c.dirs == [0, 1] && c.files == [2, 3, 4] && c.links == [(5, 4)] && c.jobs == 2
    && c.needs(0) == c.needs(1) == c.needs(2) == c.needs(4) == {} && c.needs(3) == {0, 2} && c.needs(5) == {0, 1, 2, 3}
  }

  lemma RaceLists(c: Setup)
    requires RaceForm(c)
    ensures LinkNames(c.links) == {5} && Elements(c.dirs) == {0, 1} && Elements(c.files) == {2, 3, 4} && All(c) == {0, 1, 2, 3, 4, 5}
  {
    assert (5, 4) in c.links;
  }

  /** Each entry needs only smaller numbers, so the order of the numbers is possible. */
  lemma RaceInOrder(c: Setup, p: seq<nat>)
    requires RaceForm(c) && |p| <= 6 && forall k | 0 <= k < |p| :: p[k] == k
    ensures Possible(c, p)
  {
    RaceLists(c);
    forall i | 0 <= i < |p| ensures FitsAt(c, p, i) {
      forall n | n in c.needs(p[i]) ensures n in Elements(p[..i]) {
        assert n < i && p[..i][n] == n;
      }
    }
  }

  lemma RacePossible(c: Setup)
    requires RaceForm(c)
    ensures Possible(c, c.dirs) && forall f | f in All(c) :: Installable(c, f)
  {
    RaceInOrder(c, [0, 1, 2, 3, 4, 5]);
    RaceInOrder(c, c.dirs);
    RaceLists(c);
  }

  lemma RaceStops(c: Setup)
    requires RaceForm(c)
    ensures CanStop(c)
  {
    RaceLists(c);
    RacePossible(c);
    assert !Early(c, 3) by {
      assert 2 in c.needs(3) && 2 !in Elements(c.dirs);
    }
    assert (5, 4) in c.links && 3 in c.needs(5) && !Comes(c, (5, 4), 3);
    UnreadyStops(c, (5, 4), 3);
  }

  /** An interleaving can stop the program although every file could be installed. */
  lemma LinksCanStop() returns (steps: seq<Step>)
    ensures CanRun(RACE, START, steps) && Run(RACE, START, steps).phase.Fatal?
    ensures forall f | f in All(RACE) :: Installable(RACE, f)
  {
    RaceAbove();
    RaceLeads();
    RacePossible(RACE);
    RaceStops(RACE);
    steps :| CanRun(RACE, START, steps) && Run(RACE, START, steps).phase.Fatal?;
  }

  // ----- setups come from classify_file -----

  /** The hardlinks that classify_file collects, with their targets. */
  function WithTargets(copies: seq<nat>, targets: map<nat, nat>): (links: seq<(nat, nat)>)
    requires forall i | i in copies :: i in targets
    ensures |links| == |copies| && forall k | 0 <= k < |links| :: links[k] == (copies[k], targets[copies[k]])
  {
    seq(|copies|, k requires 0 <= k < |copies| => (copies[k], targets[copies[k]]))
  }

  /** Whatever order qsort gives the directories, the lists of classify_file share no file, name none twice, and
      hold all files of the tree; so the results about every setup hold of what the program runs. */
  lemma ClassifiedIsPartitioned(fs: seq<Classify.Info>, dirs: seq<nat>, files: seq<nat>, copies: seq<nat>, targets: map<nat, nat>, c: Setup)
    requires Classify.Sorted(fs, |fs|, dirs, files, copies)
    requires forall i | i in copies :: i in targets && targets[i] in files
    requires Elements(c.dirs) == Elements(dirs) && c.files == files && c.links == WithTargets(copies, targets)
    ensures Partitioned(c) && forall i :: i in All(c) <==> 0 <= i < |fs|
  {
    forall i ensures i in LinkNames(c.links) <==> i in copies {
      if i in copies {
        var k :| 0 <= k < |copies| && copies[k] == i;
        assert c.links[k] in c.links;
      }
    }
  }
}

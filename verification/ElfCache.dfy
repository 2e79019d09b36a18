/** The soname cache of initrd-put (utils/initrd-put/enqueue-library.c:115-165, 257-351, 462-490). */
module ElfCache {
  import opened Basics

  datatype Key = Key(elfClass: nat, machine: nat, soname: string)

  /** What the ELF headers of an object say; interp is empty when there is none. */
  datatype Object = Object(elfClass: nat, machine: nat, needed: seq<string>, interp: string, hasRpath: bool)

  /** A line of ldd's output that names an absolute path, with the soname it is cached under. */
  datatype Line = Line(soname: string, path: string)

  function KeyOf(o: Object, soname: string): Key {
    Key(o.elfClass, o.machine, soname)
  }

  predicate Absolute(path: string) {
    path != "" && path[0] == '/'
  }

  // ----- what one object enqueues -----

  ghost function Paths(lines: seq<Line>): set<string> {
    set l | l in lines :: l.path
  }

  predicate AllCached(entries: map<Key, string>, o: Object, needed: seq<string>) {
    forall n | n in needed :: KeyOf(o, n) in entries
  }

  ghost function CachedPaths(entries: map<Key, string>, o: Object, needed: seq<string>): set<string>
    requires AllCached(entries, o, needed)
  {
    set n | n in needed :: entries[KeyOf(o, n)]
  }

  ghost function Interp(o: Object): set<string> {
    if Absolute(o.interp) then {o.interp} else {}
  }

  predicate UsesCache(entries: map<Key, string>, o: Object, disabled: bool) {
    !o.hasRpath && !disabled && AllCached(entries, o, o.needed)
  }

  ghost function Expansion(entries: map<Key, string>, o: Object, lines: seq<Line>, disabled: bool): set<string> {
    if UsesCache(entries, o, disabled) then CachedPaths(entries, o, o.needed) + Interp(o) else Paths(lines)
  }

  /** The first path that is inserted under a key stays (lines 149-165). */
  function Inserted(entries: map<Key, string>, o: Object, lines: seq<Line>): map<Key, string> {
    if lines == [] then entries
    else
      var n := |lines| - 1;
      var rest, key := Inserted(entries, o, lines[..n]), KeyOf(o, lines[n].soname);
      if key in rest then rest else rest[key := lines[n].path]
  }

  function CacheAfter(entries: map<Key, string>, o: Object, lines: seq<Line>, disabled: bool): map<Key, string> {
    if UsesCache(entries, o, disabled) || o.hasRpath || disabled then entries else Inserted(entries, o, lines)
  }

  class Cache {
    var entries: map<Key, string>

    constructor ()
      ensures entries == map[]
    {
      entries := map[];
    }

    /** elf_cache_lookup (lines 136-147). */
    function Lookup(key: Key): (r: Option<string>)
      reads this
      ensures r.Some? <==> key in entries
    {
      if key in entries then Some(entries[key]) else None
    }

    /** elf_cache_insert (lines 149-165). */
    method Insert(key: Key, path: string)
      modifies this
      ensures entries == if key in old(entries) then old(entries) else old(entries)[key := path]
    {
      if key !in entries {
        entries := entries[key := path];
      }
    }

    /** The lookups of lines 462-472. */
    method Knows(o: Object) returns (all: bool)
      ensures all <==> AllCached(entries, o, o.needed)
    {
      var i := 0;
      while i < |o.needed|
        invariant i <= |o.needed| && AllCached(entries, o, o.needed[..i])
      {
        if Lookup(KeyOf(o, o.needed[i])).None? {
          assert o.needed[i] in o.needed;
          return false;
        }
        assert o.needed[..i + 1] == o.needed[..i] + [o.needed[i]];
        i := i + 1;
      }
      assert o.needed[..i] == o.needed;
      return true;
    }

    /** The cached branch (lines 474-487). */
    method FromCache(o: Object) returns (items: seq<string>)
      requires AllCached(entries, o, o.needed)
      ensures forall s :: s in items <==> s in CachedPaths(entries, o, o.needed) + Interp(o)
    {
      items := [];
      var i := 0;
      while i < |o.needed|
        invariant i <= |o.needed| && forall s :: s in items <==> s in CachedPaths(entries, o, o.needed[..i])
      {
        assert o.needed[..i + 1] == o.needed[..i] + [o.needed[i]] && o.needed[i] in o.needed;
        items := items + [entries[KeyOf(o, o.needed[i])]];
        i := i + 1;
      }
      assert o.needed[..i] == o.needed;
      if Absolute(o.interp) {
        items := items + [o.interp];
      }
    }

    /** enqueue_shared_libraries (lines 257-351): every line is enqueued and, if the object may use the cache, inserted. */
    method FromLdd(o: Object, lines: seq<Line>, canCache: bool) returns (items: seq<string>)
      modifies this
      ensures forall s :: s in items <==> s in Paths(lines)
      ensures entries == if canCache then Inserted(old(entries), o, lines) else old(entries)
    {
      items := [];
      var i := 0;
      while i < |lines|
        invariant i <= |lines| && entries == old(entries) && forall s :: s in items <==> s in Paths(lines[..i])
      {
        assert lines[..i + 1] == lines[..i] + [lines[i]];
        items := items + [lines[i].path];
        i := i + 1;
      }
      assert lines[..i] == lines;
      if canCache {
        i := 0;
        while i < |lines|
          invariant i <= |lines| && entries == Inserted(old(entries), o, lines[..i])
        {
          assert lines[..i + 1][..i] == lines[..i];
          Insert(KeyOf(o, lines[i].soname), lines[i].path);
          i := i + 1;
        }
        assert lines[..i] == lines;
      }
    }

    /** enqueue_libraries from line 462 on. */
    method EnqueueLibraries(o: Object, lines: seq<Line>, disabled: bool) returns (items: seq<string>)
      modifies this
      ensures forall s :: s in items <==> s in Expansion(old(entries), o, lines, disabled)
      ensures entries == CacheAfter(old(entries), o, lines, disabled)
    {
      var canUse := !o.hasRpath && !disabled;
      var all := canUse;
      if canUse {
        all := Knows(o);
      }
      if all {
        items := FromCache(o);
      } else {
        items := FromLdd(o, lines, canUse);
      }
    }
  }

  // ----- what the cache may and may not be used for -----

  /** Both caches say the same about objects of one class and machine. */
  ghost predicate SameFor(a: map<Key, string>, b: map<Key, string>, elfClass: nat, machine: nat) {
    forall n ::
      && (Key(elfClass, machine, n) in a <==> Key(elfClass, machine, n) in b)
      && (Key(elfClass, machine, n) in a ==> a[Key(elfClass, machine, n)] == b[Key(elfClass, machine, n)])
  }

  lemma {:induction false} InsertedElsewhere(entries: map<Key, string>, o: Object, lines: seq<Line>, elfClass: nat, machine: nat)
    requires o.elfClass != elfClass || o.machine != machine
    ensures SameFor(Inserted(entries, o, lines), entries, elfClass, machine)
    decreases |lines|
  {
    if lines != [] {
      InsertedElsewhere(entries, o, lines[..|lines| - 1], elfClass, machine);
    }
  }

  lemma SameExpansion(a: map<Key, string>, b: map<Key, string>, o: Object, lines: seq<Line>, disabled: bool)
    requires SameFor(a, b, o.elfClass, o.machine)
    ensures Expansion(a, o, lines, disabled) == Expansion(b, o, lines, disabled)
  {
    assert forall n | n in o.needed :: KeyOf(o, n) in a <==> KeyOf(o, n) in b;
    if AllCached(a, o, o.needed) {
      assert CachedPaths(a, o, o.needed) == CachedPaths(b, o, o.needed);
    }
  }

  /** An object of another class or machine that was processed before, with whatever ldd named for
      it, changes nothing of what is enqueued for o'. */
  lemma OtherMachineUnnoticed(entries: map<Key, string>, o: Object, lines: seq<Line>, o': Object, lines': seq<Line>, disabled: bool)
    requires (o.elfClass, o.machine) != (o'.elfClass, o'.machine)
    ensures Expansion(CacheAfter(entries, o, lines, disabled), o', lines', disabled) == Expansion(entries, o', lines', disabled)
  {
    InsertedElsewhere(entries, o, lines, o'.elfClass, o'.machine);
    SameExpansion(CacheAfter(entries, o, lines, disabled), entries, o', lines', disabled);
  }

  /** With a search path of its own, or with the cache switched off, an object gets exactly ldd's paths
      and leaves the cache alone. */
  lemma AskedOfLdd(entries: map<Key, string>, o: Object, lines: seq<Line>, disabled: bool)
    requires o.hasRpath || disabled
    ensures forall y :: y in Expansion(entries, o, lines, disabled) <==> exists l :: l in lines && l.path == y
    ensures CacheAfter(entries, o, lines, disabled) == entries
  {
  }

  lemma {:induction false} InsertedFirst(entries: map<Key, string>, o: Object, lines: seq<Line>, i: nat)
    requires i < |lines| && (forall j | 0 <= j < i :: lines[j].soname != lines[i].soname)
    requires Key(o.elfClass, o.machine, lines[i].soname) !in entries
    ensures var k := Key(o.elfClass, o.machine, lines[i].soname);
            k in Inserted(entries, o, lines) && Inserted(entries, o, lines)[k] == lines[i].path
    decreases |lines|
  {
    var n := |lines| - 1;
    if i < n {
      InsertedFirst(entries, o, lines[..n], i);
    } else {
      InsertedNot(entries, o, lines[..n], lines[i].soname);
    }
  }

  lemma {:induction false} InsertedNot(entries: map<Key, string>, o: Object, lines: seq<Line>, n: string)
    requires Key(o.elfClass, o.machine, n) !in entries && forall j | 0 <= j < |lines| :: lines[j].soname != n
    ensures Key(o.elfClass, o.machine, n) !in Inserted(entries, o, lines)
    decreases |lines|
  {
    if lines != [] {
      InsertedNot(entries, o, lines[..|lines| - 1], n);
    }
  }

  /** After an object of the same class and machine whose ldd lines, each name once, hold every name o' needs,
      ldd is not asked for o': it gets those lines' paths and its interpreter. */
  lemma SameMachineServed(o: Object, lines: seq<Line>, o': Object, lines': seq<Line>)
    requires (o.elfClass, o.machine) == (o'.elfClass, o'.machine) && !o.hasRpath && !o'.hasRpath && o.needed != []
    requires forall i, j | 0 <= i < j < |lines| :: lines[i].soname != lines[j].soname
    requires forall n | n in o'.needed :: exists l :: l in lines && l.soname == n
    ensures forall y :: y in Expansion(CacheAfter(map[], o, lines, false), o', lines', false) <==>
              (y == o'.interp && y != "" && y[0] == '/') || exists l :: l in lines && l.soname in o'.needed && l.path == y
  {
    var entries := CacheAfter(map[], o, lines, false);
    assert o.needed[0] in o.needed;
    forall l | l in lines ensures Key(o.elfClass, o.machine, l.soname) in entries && entries[Key(o.elfClass, o.machine, l.soname)] == l.path {
      var i :| 0 <= i < |lines| && lines[i] == l;
      InsertedFirst(map[], o, lines, i);
    }
    forall n | n in o'.needed ensures KeyOf(o', n) in entries {
      var l :| l in lines && l.soname == n;
    }
    assert UsesCache(entries, o', false);
  }

  // ----- whole runs -----

  /** The objects by path, and what ldd prints for each. */
  datatype System = System(elf: string -> Option<Object>, ldd: string -> seq<Line>)

  type Resolver = Key -> Option<string>

  datatype State = State(done: set<string>, queued: set<string>, entries: map<Key, string>)

  ghost function Items(sys: System, disabled: bool, entries: map<Key, string>, x: string): set<string> {
    match sys.elf(x)
    case None => {}
    case Some(o) => Expansion(entries, o, sys.ldd(x), disabled)
  }

  /** Processing a queued path: what it enqueues is queued unless it was seen before. */
  ghost function Step(sys: System, disabled: bool, s: State, x: string): State {
    var done := s.done + {x};
    State(done, s.queued - {x} + (Items(sys, disabled, s.entries, x) - done),
          match sys.elf(x)
          case None => s.entries
          case Some(o) => CacheAfter(s.entries, o, sys.ldd(x), disabled))
  }

  ghost predicate CanRun(sys: System, disabled: bool, s: State, xs: seq<string>)
    decreases |xs|
  {
    xs != [] ==> xs[0] in s.queued && CanRun(sys, disabled, Step(sys, disabled, s, xs[0]), xs[1..])
  }

  ghost function Run(sys: System, disabled: bool, s: State, xs: seq<string>): State
    decreases |xs|
  {
    if xs == [] then s else Run(sys, disabled, Step(sys, disabled, s, xs[0]), xs[1..])
  }

  ghost function Initial(roots: set<string>): State {
    State({}, roots, map[])
  }

  /** xs is a whole run: each path is taken from the queue, in whatever order, until nothing is left. */
  ghost predicate Finishes(sys: System, disabled: bool, roots: set<string>, xs: seq<string>) {
    CanRun(sys, disabled, Initial(roots), xs) && Run(sys, disabled, Initial(roots), xs).queued == {}
  }

  /** Nor do any number of objects of other classes and machines, in any part of a run. */
  lemma {:induction false} OtherMachinesUnnoticed(sys: System, disabled: bool, s: State, xs: seq<string>, o: Object, lines: seq<Line>)
    requires forall x | x in xs && sys.elf(x).Some? :: (sys.elf(x).value.elfClass, sys.elf(x).value.machine) != (o.elfClass, o.machine)
    ensures Expansion(Run(sys, disabled, s, xs).entries, o, lines, disabled) == Expansion(s.entries, o, lines, disabled)
    decreases |xs|
  {
    if xs != [] {
      assert xs[0] in xs;
      if sys.elf(xs[0]).Some? {
        OtherMachineUnnoticed(s.entries, sys.elf(xs[0]).value, sys.ldd(xs[0]), o, lines, disabled);
      }
      OtherMachinesUnnoticed(sys, disabled, Step(sys, disabled, s, xs[0]), xs[1..], o, lines);
    }
  }

  // ----- one resolver decides -----

  /** y is what a name x needs stands for, or x's interpreter; an object with a search path
      of its own is answered by ldd alone. */
  ghost predicate Direct(sys: System, resolve: Resolver, x: string, y: string) {
    sys.elf(x).Some? &&
    var o := sys.elf(x).value;
    if o.hasRpath then y in Paths(sys.ldd(x))
    else
      || (y == o.interp && y != "" && y[0] == '/')
      || exists n | n in o.needed :: resolve(Key(o.elfClass, o.machine, n)) == Some(y)
  }

  ghost predicate Chain(sys: System, resolve: Resolver, p: seq<string>) {
    |p| > 0 && forall i | 0 < i < |p| :: Direct(sys, resolve, p[i - 1], p[i])
  }

  ghost predicate Leads(sys: System, resolve: Resolver, x: string, y: string) {
    exists p :: Chain(sys, resolve, p) && p[0] == x && p[|p| - 1] == y
  }

  ghost predicate Needed(sys: System, resolve: Resolver, roots: set<string>, y: string) {
    exists r | r in roots :: Leads(sys, resolve, r, y)
  }

  /** For an object without a search path of its own ldd prints at least the direct
      dependencies and at most the transitive ones, as the resolver finds them. */
  ghost predicate Resolved(sys: System, resolve: Resolver, x: string) {
    sys.elf(x).Some? && !sys.elf(x).value.hasRpath ==>
      && (forall y | Direct(sys, resolve, x, y) :: y in Paths(sys.ldd(x)))
      && (forall l | l in sys.ldd(x) :: Leads(sys, resolve, x, l.path))
      && forall l | l in sys.ldd(x) ::
           resolve(Key(sys.elf(x).value.elfClass, sys.elf(x).value.machine, l.soname)) == Some(l.path)
  }

  ghost predicate Agrees(resolve: Resolver, entries: map<Key, string>) {
    forall k | k in entries :: resolve(k) == Some(entries[k])
  }

  lemma {:induction false} InsertedAgrees(resolve: Resolver, entries: map<Key, string>, o: Object, lines: seq<Line>)
    requires Agrees(resolve, entries) && forall l | l in lines :: resolve(KeyOf(o, l.soname)) == Some(l.path)
    ensures Agrees(resolve, Inserted(entries, o, lines))
    decreases |lines|
  {
    if lines != [] {
      InsertedAgrees(resolve, entries, o, lines[..|lines| - 1]);
      assert lines[|lines| - 1] in lines;
    }
  }

  lemma LeadsOne(sys: System, resolve: Resolver, x: string, y: string)
    requires Direct(sys, resolve, x, y)
    ensures Leads(sys, resolve, x, y)
  {
    var p := [x, y];
    assert Chain(sys, resolve, p) && p[0] == x && p[|p| - 1] == y;
  }

  lemma LeadsTwice(sys: System, resolve: Resolver, x: string, y: string, z: string)
    requires Leads(sys, resolve, x, y) && Leads(sys, resolve, y, z)
    ensures Leads(sys, resolve, x, z)
  {
    var p :| Chain(sys, resolve, p) && p[0] == x && p[|p| - 1] == y;
    var q :| Chain(sys, resolve, q) && q[0] == y && q[|q| - 1] == z;
    var r := p + q[1..];
    forall i | 0 < i < |r| ensures Direct(sys, resolve, r[i - 1], r[i]) {
      if i < |p| {
        assert r[i - 1] == p[i - 1] && r[i] == p[i];
      } else {
        assert r[i] == q[i - |p| + 1] && r[i - 1] == q[i - |p|];
      }
    }
    assert Chain(sys, resolve, r) && r[0] == x && r[|r| - 1] == z;
  }

  /** Whichever branch is taken, at least the direct and at most the transitive dependencies are enqueued. */
  lemma ItemsBetween(sys: System, resolve: Resolver, disabled: bool, entries: map<Key, string>, x: string)
    requires Resolved(sys, resolve, x) && Agrees(resolve, entries)
    ensures forall y | Direct(sys, resolve, x, y) :: y in Items(sys, disabled, entries, x)
    ensures forall y | y in Items(sys, disabled, entries, x) :: Leads(sys, resolve, x, y)
  {
    if sys.elf(x).Some? {
      var o := sys.elf(x).value;
      if UsesCache(entries, o, disabled) {
        forall y | Direct(sys, resolve, x, y) ensures y in Items(sys, disabled, entries, x) {
          if y !in Interp(o) {
            var n :| n in o.needed && resolve(Key(o.elfClass, o.machine, n)) == Some(y);
            assert entries[KeyOf(o, n)] == y;
          }
        }
        forall y | y in Items(sys, disabled, entries, x) ensures Leads(sys, resolve, x, y) {
          LeadsOne(sys, resolve, x, y);
        }
      } else if o.hasRpath {
        forall y | y in Items(sys, disabled, entries, x) ensures Leads(sys, resolve, x, y) {
          LeadsOne(sys, resolve, x, y);
        }
      }
    }
  }

  ghost predicate AllResolved(sys: System, resolve: Resolver) {
    forall x :: Resolved(sys, resolve, x)
  }

  /** What every state of a run keeps. */
  ghost predicate Inv(sys: System, resolve: Resolver, roots: set<string>, s: State) {
    && Agrees(resolve, s.entries)
    && (forall x {:trigger Needed(sys, resolve, roots, x)} | x in s.done + s.queued :: Needed(sys, resolve, roots, x))
    && roots <= s.done + s.queued
    && forall x, y | x in s.done && Direct(sys, resolve, x, y) :: y in s.done + s.queued
  }

  lemma NeededFurther(sys: System, resolve: Resolver, roots: set<string>, x: string, y: string)
    requires Needed(sys, resolve, roots, x) && Leads(sys, resolve, x, y)
    ensures Needed(sys, resolve, roots, y)
  {
    var r :| r in roots && Leads(sys, resolve, r, x);
    LeadsTwice(sys, resolve, r, x, y);
  }

  lemma StepAgrees(sys: System, resolve: Resolver, disabled: bool, s: State, x: string)
    requires Resolved(sys, resolve, x) && Agrees(resolve, s.entries)
    ensures Agrees(resolve, Step(sys, disabled, s, x).entries)
  {
    if sys.elf(x).Some? && !sys.elf(x).value.hasRpath {
      InsertedAgrees(resolve, s.entries, sys.elf(x).value, sys.ldd(x));
    }
  }

  lemma StepNeeded(sys: System, resolve: Resolver, roots: set<string>, s: State, s': State, x: string, items: set<string>)
    requires Inv(sys, resolve, roots, s) && x in s.queued && forall y | y in items :: Leads(sys, resolve, x, y)
    requires s'.done + s'.queued <= s.done + s.queued + items
    ensures forall y {:trigger Needed(sys, resolve, roots, y)} | y in s'.done + s'.queued :: Needed(sys, resolve, roots, y)
  {
    assert Needed(sys, resolve, roots, x);
    forall y | y in s'.done + s'.queued ensures Needed(sys, resolve, roots, y) {
      if y in items {
        NeededFurther(sys, resolve, roots, x, y);
      }
    }
  }

  lemma StepKeeps(sys: System, resolve: Resolver, roots: set<string>, disabled: bool, s: State, x: string)
    requires AllResolved(sys, resolve) && Inv(sys, resolve, roots, s) && x in s.queued
    ensures Inv(sys, resolve, roots, Step(sys, disabled, s, x))
  {
    assert Resolved(sys, resolve, x);
    ItemsBetween(sys, resolve, disabled, s.entries, x);
    StepAgrees(sys, resolve, disabled, s, x);
    StepNeeded(sys, resolve, roots, s, Step(sys, disabled, s, x), x, Items(sys, disabled, s.entries, x));
  }

  lemma {:induction false} RunKeeps(sys: System, resolve: Resolver, roots: set<string>, disabled: bool, s: State, xs: seq<string>)
    requires AllResolved(sys, resolve) && Inv(sys, resolve, roots, s) && CanRun(sys, disabled, s, xs)
    ensures Inv(sys, resolve, roots, Run(sys, disabled, s, xs))
    decreases |xs|
  {
    if xs != [] {
      StepKeeps(sys, resolve, roots, disabled, s, xs[0]);
      RunKeeps(sys, resolve, roots, disabled, Step(sys, disabled, s, xs[0]), xs[1..]);
    }
  }

  lemma {:induction false} ChainDone(sys: System, resolve: Resolver, done: set<string>, p: seq<string>)
    requires Chain(sys, resolve, p) && p[0] in done && forall x, y | x in done && Direct(sys, resolve, x, y) :: y in done
    ensures p[|p| - 1] in done
    decreases |p|
  {
    if |p| > 1 {
      var n := |p| - 1;
      ChainDone(sys, resolve, done, p[..n]);
      assert Direct(sys, resolve, p[n - 1], p[n]);
    }
  }

  lemma InitialKeeps(sys: System, resolve: Resolver, roots: set<string>)
    ensures Inv(sys, resolve, roots, Initial(roots))
  {
    forall x | x in roots ensures Needed(sys, resolve, roots, x) {
      var p := [x];
      assert Chain(sys, resolve, p) && p[0] == x && p[|p| - 1] == x;
      assert Leads(sys, resolve, x, x);
    }
  }

  lemma NothingQueuedIsNeeded(sys: System, resolve: Resolver, roots: set<string>, s: State, y: string)
    requires Inv(sys, resolve, roots, s) && s.queued == {}
    ensures y in s.done <==> Needed(sys, resolve, roots, y)
  {
    assert s.done + s.queued == s.done;
    if Needed(sys, resolve, roots, y) {
      var r :| r in roots && Leads(sys, resolve, r, y);
      var p :| Chain(sys, resolve, p) && p[0] == r && p[|p| - 1] == y;
      ChainDone(sys, resolve, s.done, p);
    }
  }

  /** Every whole run, in whatever order and with or without the cache, ends with exactly what the roots need. */
  lemma RunFindsNeeded(sys: System, resolve: Resolver, disabled: bool, roots: set<string>, xs: seq<string>)
    requires AllResolved(sys, resolve) && Finishes(sys, disabled, roots, xs)
    ensures forall y :: y in Run(sys, disabled, Initial(roots), xs).done <==> Needed(sys, resolve, roots, y)
  {
    InitialKeeps(sys, resolve, roots);
    RunKeeps(sys, resolve, roots, disabled, Initial(roots), xs);
    var s := Run(sys, disabled, Initial(roots), xs);
    forall y ensures y in s.done <==> Needed(sys, resolve, roots, y) {
      NothingQueuedIsNeeded(sys, resolve, roots, s, y);
    }
  }

  /** The cache changes nothing: a run that uses it and a run that asks ldd every time find the same paths. */
  lemma CacheRefinesLdd(sys: System, resolve: Resolver, roots: set<string>, xs: seq<string>, ys: seq<string>)
    requires AllResolved(sys, resolve) && Finishes(sys, false, roots, xs) && Finishes(sys, true, roots, ys)
    ensures Run(sys, false, Initial(roots), xs).done == Run(sys, true, Initial(roots), ys).done
  {
    RunFindsNeeded(sys, resolve, false, roots, xs);
    RunFindsNeeded(sys, resolve, true, roots, ys);
  }

  // ----- without a single resolver -----

  const PROGRAM := Object(2, 62, ["a"], "", false)
  const PRIVATE := Object(2, 62, ["b"], "", true)
  const OTHER := Object(2, 62, ["b"], "", false)

  /** /x needs a, whose own search path finds b at /p/b; /y needs b, which is found at /b. */
  const SEARCHED: System := System(
    x => if x == "/x" then Some(PROGRAM) else if x == "/a" then Some(PRIVATE) else if x == "/y" then Some(OTHER) else None,
    x => if x == "/x" then [Line("a", "/a"), Line("b", "/p/b")]
         else if x == "/a" then [Line("b", "/p/b")] else if x == "/y" then [Line("b", "/b")] else [])

  ghost predicate StepsTo(disabled: bool, s: State, x: string, t: State) {
    x in s.queued && Step(SEARCHED, disabled, s, x).done == t.done && Step(SEARCHED, disabled, s, x).queued == t.queued
    && Step(SEARCHED, disabled, s, x).entries == t.entries
  }

  lemma RunOneMore(disabled: bool, s: State, x: string, t: State, xs: seq<string>)
    requires StepsTo(disabled, s, x, t) && CanRun(SEARCHED, disabled, t, xs)
    ensures CanRun(SEARCHED, disabled, s, [x] + xs)
    ensures Run(SEARCHED, disabled, s, [x] + xs) == Run(SEARCHED, disabled, t, xs)
  {
    assert ([x] + xs)[1..] == xs && Step(SEARCHED, disabled, s, x) == t;
  }

  const AFTER_X: map<Key, string> := map[Key(2, 62, "a") := "/a", Key(2, 62, "b") := "/p/b"]

  lemma TwoLines(a: Line, b: Line, o: Object)
    requires a.soname != b.soname
    ensures Paths([a, b]) == {a.path, b.path}
    ensures Inserted(map[], o, [a, b]) == map[KeyOf(o, a.soname) := a.path, KeyOf(o, b.soname) := b.path]
  {
    assert a in [a, b] && b in [a, b];
    assert [a, b][..1] == [a] && [a][..0] == [];
    assert Inserted(map[], o, [a]) == map[KeyOf(o, a.soname) := a.path];
  }

  lemma OneLine(a: Line)
    ensures Paths([a]) == {a.path}
  {
    assert a in [a];
  }

  lemma FirstStep()
    ensures StepsTo(false, State({}, {"/x", "/y"}, map[]), "/x", State({"/x"}, {"/y", "/a", "/p/b"}, AFTER_X))
    ensures StepsTo(true, State({}, {"/x", "/y"}, map[]), "/x", State({"/x"}, {"/y", "/a", "/p/b"}, map[]))
  {
    assert "a" in PROGRAM.needed;
    TwoLines(Line("a", "/a"), Line("b", "/p/b"), PROGRAM);
  }

  lemma SecondStep(disabled: bool, entries: map<Key, string>)
    ensures StepsTo(disabled, State({"/x"}, {"/y", "/a", "/p/b"}, entries), "/a", State({"/x", "/a"}, {"/y", "/p/b"}, entries))
    ensures StepsTo(disabled, State({"/x", "/a"}, {"/y", "/p/b"}, entries), "/p/b", State({"/x", "/a", "/p/b"}, {"/y"}, entries))
  {
    OneLine(Line("b", "/p/b"));
  }

  lemma LastStep()
    ensures StepsTo(false, State({"/x", "/a", "/p/b"}, {"/y"}, AFTER_X), "/y", State({"/x", "/a", "/p/b", "/y"}, {}, AFTER_X))
    ensures StepsTo(true, State({"/x", "/a", "/p/b"}, {"/y"}, map[]), "/y", State({"/x", "/a", "/p/b", "/y"}, {"/b"}, map[]))
    ensures StepsTo(true, State({"/x", "/a", "/p/b", "/y"}, {"/b"}, map[]), "/b", State({"/x", "/a", "/p/b", "/y", "/b"}, {}, map[]))
  {
    OneLine(Line("b", "/b"));
    assert CachedPaths(AFTER_X, OTHER, ["b"]) == {"/p/b"} by {
      assert "b" in ["b"];
    }
  }

  lemma CachedRun()
    ensures var roots := {"/x", "/y"}; var xs := ["/x"] + (["/a"] + (["/p/b"] + (["/y"] + [])));
            Finishes(SEARCHED, false, roots, xs) && Run(SEARCHED, false, Initial(roots), xs).done == {"/x", "/a", "/p/b", "/y"}
  {
    FirstStep();
    SecondStep(false, AFTER_X);
    LastStep();
    var s0, s1 := State({}, {"/x", "/y"}, map[]), State({"/x"}, {"/y", "/a", "/p/b"}, AFTER_X);
    var s2, s3 := State({"/x", "/a"}, {"/y", "/p/b"}, AFTER_X), State({"/x", "/a", "/p/b"}, {"/y"}, AFTER_X);
    var s4 := State({"/x", "/a", "/p/b", "/y"}, {}, AFTER_X);
    RunOneMore(false, s3, "/y", s4, []);
    RunOneMore(false, s2, "/p/b", s3, ["/y"] + []);
    RunOneMore(false, s1, "/a", s2, ["/p/b"] + (["/y"] + []));
    RunOneMore(false, s0, "/x", s1, ["/a"] + (["/p/b"] + (["/y"] + [])));
  }

  lemma UncachedRun()
    ensures var roots := {"/x", "/y"}; var xs := ["/x"] + (["/a"] + (["/p/b"] + (["/y"] + (["/b"] + []))));
            Finishes(SEARCHED, true, roots, xs) && Run(SEARCHED, true, Initial(roots), xs).done == {"/x", "/a", "/p/b", "/y", "/b"}
  {
    FirstStep();
    SecondStep(true, map[]);
    LastStep();
    var s0, s1 := State({}, {"/x", "/y"}, map[]), State({"/x"}, {"/y", "/a", "/p/b"}, map[]);
    var s2, s3 := State({"/x", "/a"}, {"/y", "/p/b"}, map[]), State({"/x", "/a", "/p/b"}, {"/y"}, map[]);
    var s4, s5 := State({"/x", "/a", "/p/b", "/y"}, {"/b"}, map[]), State({"/x", "/a", "/p/b", "/y", "/b"}, {}, map[]);
    RunOneMore(true, s4, "/b", s5, []);
    RunOneMore(true, s3, "/y", s4, ["/b"] + []);
    RunOneMore(true, s2, "/p/b", s3, ["/y"] + (["/b"] + []));
    RunOneMore(true, s1, "/a", s2, ["/p/b"] + (["/y"] + (["/b"] + [])));
    RunOneMore(true, s0, "/x", s1, ["/a"] + (["/p/b"] + (["/y"] + (["/b"] + []))));
  }

  /** Without a single resolver the cache can lose a path: a library found through a dependency's own search path is
      cached for everyone, and /b, which ldd names for /y, never enters the set. */
  lemma CacheCanLosePath() returns (roots: set<string>, xs: seq<string>, ys: seq<string>)
    ensures Finishes(SEARCHED, false, roots, xs) && Finishes(SEARCHED, true, roots, ys)
    ensures Run(SEARCHED, false, Initial(roots), xs).done < Run(SEARCHED, true, Initial(roots), ys).done
  {
    CachedRun();
    UncachedRun();
    roots := {"/x", "/y"};
    xs := ["/x"] + (["/a"] + (["/p/b"] + (["/y"] + [])));
    ys := ["/x"] + (["/a"] + (["/p/b"] + (["/y"] + (["/b"] + []))));
    assert "/b" in Run(SEARCHED, true, Initial(roots), ys).done;
  }

  // ----- exactly when the cache is noticed -----

  ghost predicate SameFound(sys: System, roots: set<string>, xs: seq<string>, ys: seq<string>) {
    Run(sys, false, Initial(roots), xs).done == Run(sys, true, Initial(roots), ys).done
  }

  /** Whatever the roots and the orders, runs with and without the cache find the same paths. */
  ghost predicate Unnoticed(sys: System) {
    forall roots, xs, ys | Finishes(sys, false, roots, xs) && Finishes(sys, true, roots, ys) :: SameFound(sys, roots, xs, ys)
  }

  /** The cache that the objects of zs leave behind, processed in this order. */
  ghost function Fill(sys: System, zs: seq<string>): map<Key, string> {
    if zs == [] then map[]
    else
      var n := |zs| - 1;
      match sys.elf(zs[n])
      case None => Fill(sys, zs[..n])
      case Some(o) => CacheAfter(Fill(sys, zs[..n]), o, sys.ldd(zs[n]), false)
  }

  /** The paths they enqueue. */
  ghost function Gave(sys: System, zs: seq<string>): set<string> {
    if zs == [] then {}
    else
      var n := |zs| - 1;
      Gave(sys, zs[..n]) + Items(sys, false, Fill(sys, zs[..n]), zs[n])
  }

  /** The objects of zs build a cache that answers for x ... */
  ghost predicate Serves(sys: System, zs: seq<string>, x: string) {
    x !in zs && sys.elf(x).Some? && UsesCache(Fill(sys, zs), sys.elf(x).value, false)
  }

  /** ... and they, or x itself, bring along path p. */
  ghost predicate Brings(sys: System, zs: seq<string>, x: string, p: string)
    requires sys.elf(x).Some?
  {
    p in zs || p == x || p in Gave(sys, zs) || p in Interp(sys.elf(x).value)
  }

  /** No objects can build a cache that answers for x without bringing along every path ldd names for x. */
  ghost predicate Covered(sys: System) {
    forall zs, x, p | Distinct(zs) && Serves(sys, zs, x) && p in Paths(sys.ldd(x)) :: Brings(sys, zs, x, p)
  }

  /** ldd names the interpreter, and the interpreter loads nothing. */
  ghost predicate LoaderIsStatic(sys: System) {
    forall x | sys.elf(x).Some? && Absolute(sys.elf(x).value.interp) ::
      var y := sys.elf(x).value.interp;
      y in Paths(sys.ldd(x)) && (sys.elf(y).Some? ==> sys.ldd(y) == [])
  }

  /** ldd names the libraries of every library it names. */
  ghost predicate LddIsTransitive(sys: System) {
    forall x, y | sys.elf(x).Some? && y in Paths(sys.ldd(x)) && sys.elf(y).Some? :: Paths(sys.ldd(y)) <= Paths(sys.ldd(x))
  }

  // ----- sets closed under ldd -----

  ghost predicate LddInside(sys: System, x: string, found: set<string>) {
    sys.elf(x).Some? ==> Paths(sys.ldd(x)) <= found
  }

  ghost predicate ValuesInside(entries: map<Key, string>, found: set<string>) {
    forall k | k in entries :: entries[k] in found
  }

  lemma {:induction false} InsertedInside(entries: map<Key, string>, o: Object, lines: seq<Line>, found: set<string>)
    requires ValuesInside(entries, found) && Paths(lines) <= found
    ensures ValuesInside(Inserted(entries, o, lines), found)
    decreases |lines|
  {
    if lines != [] {
      var n := |lines| - 1;
      assert lines[n] in lines && lines[n].path in Paths(lines);
      assert Paths(lines[..n]) <= Paths(lines);
      InsertedInside(entries, o, lines[..n], found);
    }
  }

  /** A step stays inside a set that has x's libraries. */
  lemma StepInside(sys: System, disabled: bool, s: State, x: string, found: set<string>)
    requires LoaderIsStatic(sys) && s.done + s.queued <= found && ValuesInside(s.entries, found) && x in s.queued && LddInside(sys, x, found)
    ensures var t := Step(sys, disabled, s, x); t.done + t.queued <= found && ValuesInside(t.entries, found)
  {
    if sys.elf(x).Some? {
      var o := sys.elf(x).value;
      InsertedInside(s.entries, o, sys.ldd(x), found);
      assert Items(sys, disabled, s.entries, x) <= found;
    }
  }

  lemma {:induction false} RunInside(sys: System, disabled: bool, s: State, xs: seq<string>, found: set<string>)
    requires LoaderIsStatic(sys) && s.done + s.queued <= found && ValuesInside(s.entries, found) && CanRun(sys, disabled, s, xs)
    requires forall x | x in found :: LddInside(sys, x, found)
    ensures Run(sys, disabled, s, xs).done <= found
    decreases |xs|
  {
    if xs != [] {
      StepInside(sys, disabled, s, xs[0], found);
      RunInside(sys, disabled, Step(sys, disabled, s, xs[0]), xs[1..], found);
    }
  }

  /** Without the cache, every processed object's libraries are found. */
  lemma {:induction false} UncachedClosed(sys: System, s: State, xs: seq<string>)
    requires CanRun(sys, true, s, xs) && forall x | x in s.done :: LddInside(sys, x, s.done + s.queued)
    ensures var t := Run(sys, true, s, xs); s.done + s.queued <= t.done + t.queued && forall x | x in t.done :: LddInside(sys, x, t.done + t.queued)
    decreases |xs|
  {
    if xs != [] {
      UncachedClosed(sys, Step(sys, true, s, xs[0]), xs[1..]);
    }
  }

  // ----- a run, seen from its end -----

  lemma {:induction false} RunSnoc(sys: System, disabled: bool, s: State, xs: seq<string>, x: string)
    ensures Run(sys, disabled, s, xs + [x]) == Step(sys, disabled, Run(sys, disabled, s, xs), x)
    ensures CanRun(sys, disabled, s, xs + [x]) <==> CanRun(sys, disabled, s, xs) && x in Run(sys, disabled, s, xs).queued
    decreases |xs|
  {
    if xs == [] {
      assert [x][1..] == [] && xs + [x] == [x];
    } else {
      assert (xs + [x])[1..] == xs[1..] + [x];
      RunSnoc(sys, disabled, Step(sys, disabled, s, xs[0]), xs[1..], x);
    }
  }

  /** The state after zs, in terms of what zs did. */
  ghost predicate After(sys: System, roots: set<string>, zs: seq<string>, s: State) {
    && s.entries == Fill(sys, zs)
    && (forall y :: y in s.done <==> y in zs)
    && s.done !! s.queued
    && s.done + s.queued == roots + s.done + Gave(sys, zs)
  }

  lemma AfterStep(sys: System, roots: set<string>, zs: seq<string>, s: State, x: string)
    requires After(sys, roots, zs, s) && x in s.queued
    ensures After(sys, roots, zs + [x], Step(sys, false, s, x))
  {
    assert (zs + [x])[..|zs|] == zs;
  }

  lemma {:induction false} RunAfter(sys: System, roots: set<string>, xs: seq<string>)
    requires CanRun(sys, false, Initial(roots), xs)
    ensures After(sys, roots, xs, Run(sys, false, Initial(roots), xs)) && Distinct(xs)
    decreases |xs|
  {
    if xs != [] {
      var n := |xs| - 1;
      assert xs[..n] + [xs[n]] == xs;
      RunSnoc(sys, false, Initial(roots), xs[..n], xs[n]);
      RunAfter(sys, roots, xs[..n]);
      AfterStep(sys, roots, xs[..n], Run(sys, false, Initial(roots), xs[..n]), xs[n]);
      DistinctSnoc(xs[..n], xs[n]);
    }
  }

  lemma DistinctSnoc(zs: seq<string>, x: string)
    requires Distinct(zs) && x !in zs
    ensures Distinct(zs + [x])
  {
  }

  // ----- covered systems -----

  lemma CoveredStep(sys: System, roots: set<string>, zs: seq<string>, s: State, x: string)
    requires Covered(sys) && Distinct(zs) && After(sys, roots, zs, s) && x in s.queued
    ensures var t := Step(sys, false, s, x); LddInside(sys, x, t.done + t.queued)
  {
    var t := Step(sys, false, s, x);
    if sys.elf(x).Some? && UsesCache(s.entries, sys.elf(x).value, false) {
      assert Serves(sys, zs, x);
      forall p | p in Paths(sys.ldd(x)) ensures p in t.done + t.queued {
        assert Brings(sys, zs, x, p);
      }
    }
  }

  /** In a covered system the libraries of every processed object are found, cached or not. */
  lemma {:induction false} CoveredClosed(sys: System, roots: set<string>, xs: seq<string>)
    requires Covered(sys) && CanRun(sys, false, Initial(roots), xs)
    ensures var t := Run(sys, false, Initial(roots), xs);
            roots <= t.done + t.queued && forall x | x in t.done :: LddInside(sys, x, t.done + t.queued)
    decreases |xs|
  {
    if xs != [] {
      var n := |xs| - 1;
      assert xs[..n] + [xs[n]] == xs;
      RunSnoc(sys, false, Initial(roots), xs[..n], xs[n]);
      RunAfter(sys, roots, xs[..n]);
      CoveredClosed(sys, roots, xs[..n]);
      CoveredStep(sys, roots, xs[..n], Run(sys, false, Initial(roots), xs[..n]), xs[n]);
    }
  }

  lemma CoveredIsUnnoticed(sys: System, roots: set<string>, xs: seq<string>, ys: seq<string>)
    requires Covered(sys) && LoaderIsStatic(sys) && Finishes(sys, false, roots, xs) && Finishes(sys, true, roots, ys)
    ensures SameFound(sys, roots, xs, ys)
  {
    var s, t := Run(sys, false, Initial(roots), xs), Run(sys, true, Initial(roots), ys);
    CoveredClosed(sys, roots, xs);
    UncachedClosed(sys, Initial(roots), ys);
    assert s.done + s.queued == s.done && t.done + t.queued == t.done;
    RunInside(sys, true, Initial(roots), ys, s.done);
    RunInside(sys, false, Initial(roots), xs, t.done);
  }

  // ----- systems that are not covered -----

  /** Paths that were given have their libraries given too. */
  ghost predicate GivenClosed(sys: System, given: set<string>) {
    forall y | y in given :: LddInside(sys, y, given)
  }

  lemma ItemsGiven(sys: System, entries: map<Key, string>, given: set<string>, x: string)
    requires LoaderIsStatic(sys) && LddIsTransitive(sys) && GivenClosed(sys, given) && ValuesInside(entries, given)
    ensures GivenClosed(sys, given + Items(sys, false, entries, x))
  {
    var items := Items(sys, false, entries, x);
    forall y | y in given + items ensures LddInside(sys, y, given + items) {
      if y !in given && sys.elf(y).Some? && sys.elf(x).Some? && !UsesCache(entries, sys.elf(x).value, false) {
        assert Paths(sys.ldd(y)) <= Paths(sys.ldd(x));
      }
    }
  }

  lemma AfterInside(sys: System, entries: map<Key, string>, given: set<string>, x: string)
    requires ValuesInside(entries, given) && sys.elf(x).Some?
    ensures ValuesInside(CacheAfter(entries, sys.elf(x).value, sys.ldd(x), false), given + Items(sys, false, entries, x))
  {
    var o := sys.elf(x).value;
    if !UsesCache(entries, o, false) {
      InsertedInside(entries, o, sys.ldd(x), given + Items(sys, false, entries, x));
    }
  }

  /** What objects put into the cache they also enqueue, with all its libraries. */
  lemma {:induction false} GaveClosed(sys: System, zs: seq<string>)
    requires LoaderIsStatic(sys) && LddIsTransitive(sys)
    ensures ValuesInside(Fill(sys, zs), Gave(sys, zs)) && GivenClosed(sys, Gave(sys, zs))
    decreases |zs|
  {
    if zs != [] {
      var n := |zs| - 1;
      GaveClosed(sys, zs[..n]);
      ItemsGiven(sys, Fill(sys, zs[..n]), Gave(sys, zs[..n]), zs[n]);
      if sys.elf(zs[n]).Some? {
        AfterInside(sys, Fill(sys, zs[..n]), Gave(sys, zs[..n]), zs[n]);
      }
    }
  }

  /** A run that stays inside a finite set can be brought to its end. */
  lemma {:induction false} FinishInside(sys: System, disabled: bool, s: State, found: set<string>) returns (xs: seq<string>)
    requires LoaderIsStatic(sys) && s.done + s.queued <= found && ValuesInside(s.entries, found) && s.done !! s.queued
    requires forall x | x in found && x !in s.done :: LddInside(sys, x, found)
    ensures CanRun(sys, disabled, s, xs) && Run(sys, disabled, s, xs).queued == {} && Run(sys, disabled, s, xs).done <= found
    decreases found - s.done
  {
    if s.queued == {} {
      xs := [];
    } else {
      var x :| x in s.queued;
      StepInside(sys, disabled, s, x, found);
      var more := FinishInside(sys, disabled, Step(sys, disabled, s, x), found);
      xs := [x] + more;
      assert xs[1..] == more;
    }
  }

  /** Distinct roots can be processed in any order. */
  lemma {:induction false} RootsRun(sys: System, roots: set<string>, zs: seq<string>)
    requires Distinct(zs) && forall z | z in zs :: z in roots
    ensures CanRun(sys, false, Initial(roots), zs)
    decreases |zs|
  {
    if zs != [] {
      var n := |zs| - 1;
      assert zs[..n] + [zs[n]] == zs;
      RootsRun(sys, roots, zs[..n]);
      RunAfter(sys, roots, zs[..n]);
      LastIsNew(zs);
      RootQueued(sys, roots, zs[..n], zs[n], Run(sys, false, Initial(roots), zs[..n]));
      RunSnoc(sys, false, Initial(roots), zs[..n], zs[n]);
    }
  }

  lemma RootQueued(sys: System, roots: set<string>, zs: seq<string>, x: string, s: State)
    requires After(sys, roots, zs, s) && x in roots && x !in zs
    ensures x in s.queued
  {
    assert x in s.done + s.queued;
  }

  lemma LastIsNew(zs: seq<string>)
    requires Distinct(zs) && zs != []
    ensures zs[|zs| - 1] !in zs[..|zs| - 1]
  {
  }

  lemma {:induction false} RunAppend(sys: System, disabled: bool, s: State, xs: seq<string>, ys: seq<string>)
    requires CanRun(sys, disabled, s, xs) && CanRun(sys, disabled, Run(sys, disabled, s, xs), ys)
    ensures CanRun(sys, disabled, s, xs + ys)
    ensures Run(sys, disabled, s, xs + ys) == Run(sys, disabled, Run(sys, disabled, s, xs), ys)
    decreases |xs|
  {
    if xs == [] {
      assert xs + ys == ys;
    } else {
      assert (xs + ys)[1..] == xs[1..] + ys;
      RunAppend(sys, disabled, Step(sys, disabled, s, xs[0]), xs[1..], ys);
    }
  }

  ghost function Members(zs: seq<string>): set<string> {
    set z | z in zs
  }

  /** The cached run in which zs come first and x after them: p never turns up. */
  lemma CachedMisses(sys: System, zs: seq<string>, x: string, p: string) returns (xs: seq<string>)
    requires LoaderIsStatic(sys) && LddIsTransitive(sys)
    requires Distinct(zs) && Serves(sys, zs, x) && p in Paths(sys.ldd(x)) && !Brings(sys, zs, x, p)
    ensures var roots := Members(zs) + {x}; Finishes(sys, false, roots, xs) && p !in Run(sys, false, Initial(roots), xs).done
  {
    var roots := Members(zs) + {x};
    RootsRun(sys, roots, zs);
    RunAfter(sys, roots, zs);
    var s := Run(sys, false, Initial(roots), zs);
    RunSnoc(sys, false, Initial(roots), zs, x);
    var found := roots + Gave(sys, zs) + Interp(sys.elf(x).value);
    var t := Step(sys, false, s, x);
    ServedStep(sys, zs, x, s, t, found);
    var more := FinishInside(sys, false, t, found);
    RunAppend(sys, false, Initial(roots), zs + [x], more);
    xs := zs + [x] + more;
  }

  lemma ServedStep(sys: System, zs: seq<string>, x: string, s: State, t: State, found: set<string>)
    requires LoaderIsStatic(sys) && LddIsTransitive(sys) && Serves(sys, zs, x)
    requires After(sys, Members(zs) + {x}, zs, s) && t == Step(sys, false, s, x)
    requires found == Members(zs) + {x} + Gave(sys, zs) + Interp(sys.elf(x).value)
    ensures t.done + t.queued <= found && ValuesInside(t.entries, found) && t.done !! t.queued
    ensures forall y | y in found && y !in t.done :: LddInside(sys, y, found)
  {
    GaveClosed(sys, zs);
    forall n | n in sys.elf(x).value.needed ensures s.entries[KeyOf(sys.elf(x).value, n)] in Gave(sys, zs) {
    }
    forall y | y in found && y !in t.done ensures LddInside(sys, y, found) {
      if y in Gave(sys, zs) {
        assert LddInside(sys, y, Gave(sys, zs));
      }
    }
  }

  /** Everything ldd names for the objects of zs. */
  ghost function Loaded(sys: System, zs: seq<string>): set<string> {
    if zs == [] then {}
    else
      var n := |zs| - 1;
      Loaded(sys, zs[..n]) + if sys.elf(zs[n]).Some? then Paths(sys.ldd(zs[n])) else {}
  }

  lemma {:induction false} LoadedClosed(sys: System, zs: seq<string>)
    requires LddIsTransitive(sys)
    ensures GivenClosed(sys, Loaded(sys, zs)) && forall z | z in zs :: LddInside(sys, z, Loaded(sys, zs))
    decreases |zs|
  {
    if zs != [] {
      var n := |zs| - 1;
      LoadedClosed(sys, zs[..n]);
      assert zs == zs[..n] + [zs[n]];
    }
  }

  /** A run that asks ldd every time ends, and finds every path ldd names for a root. */
  lemma UncachedFinds(sys: System, zs: seq<string>, x: string, p: string) returns (ys: seq<string>)
    requires LoaderIsStatic(sys) && LddIsTransitive(sys) && x in zs && sys.elf(x).Some? && p in Paths(sys.ldd(x))
    ensures Finishes(sys, true, Members(zs), ys) && p in Run(sys, true, Initial(Members(zs)), ys).done
  {
    var roots := Members(zs);
    LoadedClosed(sys, zs);
    var found := roots + Loaded(sys, zs);
    forall y | y in found ensures LddInside(sys, y, found) {
      if y in Loaded(sys, zs) {
        assert LddInside(sys, y, Loaded(sys, zs));
      }
    }
    ys := FinishInside(sys, true, Initial(roots), found);
    UncachedClosed(sys, Initial(roots), ys);
    var t := Run(sys, true, Initial(roots), ys);
    assert t.done + t.queued == t.done && x in t.done;
  }

  lemma UncoveredIsNoticed(sys: System, zs: seq<string>, x: string, p: string)
    requires LoaderIsStatic(sys) && LddIsTransitive(sys)
    requires Distinct(zs) && Serves(sys, zs, x) && p in Paths(sys.ldd(x)) && !Brings(sys, zs, x, p)
    ensures !Unnoticed(sys)
  {
    var xs := CachedMisses(sys, zs, x, p);
    var ys := UncachedFinds(sys, zs + [x], x, p);
    var roots := Members(zs) + {x};
    assert Members(zs + [x]) == roots;
    assert !SameFound(sys, roots, xs, ys);
  }

  /** For every system in which ldd prints whole closures: the cache is unnoticeable, for all
      roots and all orders, if and only if the system is covered. */
  lemma CacheUnnoticedIffCovered(sys: System)
    requires LoaderIsStatic(sys) && LddIsTransitive(sys)
    ensures Unnoticed(sys) <==> Covered(sys)
  {
    if Covered(sys) {
      forall roots, xs, ys | Finishes(sys, false, roots, xs) && Finishes(sys, true, roots, ys) ensures SameFound(sys, roots, xs, ys) {
        CoveredIsUnnoticed(sys, roots, xs, ys);
      }
    } else {
      var zs, x, p :| Distinct(zs) && Serves(sys, zs, x) && p in Paths(sys.ldd(x)) && !Brings(sys, zs, x, p);
      UncoveredIsNoticed(sys, zs, x, p);
    }
  }

  // ----- the condition in terms of needed names and ldd's lines -----

  /** An object that may use the cache. */
  predicate Shares(sys: System, x: string) {
    sys.elf(x).Some? && !sys.elf(x).value.hasRpath
  }

  /** The keys that ldd's lines for z name, when z may use the cache. */
  ghost function LineKeys(sys: System, z: string): set<Key> {
    if Shares(sys, z) then (var o := sys.elf(z).value; set l | l in sys.ldd(z) :: Key(o.elfClass, o.machine, l.soname)) else {}
  }

  ghost function NamedKeys(sys: System, zs: seq<string>): set<Key> {
    if zs == [] then {} else NamedKeys(sys, zs[..|zs| - 1]) + LineKeys(sys, zs[|zs| - 1])
  }

  /** Every name x needs is among keys. */
  ghost predicate NeedsNamed(sys: System, keys: set<Key>, x: string)
    requires sys.elf(x).Some?
  {
    var o := sys.elf(x).value;
    forall n | n in o.needed :: Key(o.elfClass, o.machine, n) in keys
  }

  /** Each object of zs that may use the cache needs a name that ldd names for none of the earlier ones. */
  ghost predicate EachNew(sys: System, zs: seq<string>) {
    zs == [] ||
    (var n := |zs| - 1;
     EachNew(sys, zs[..n]) && (Shares(sys, zs[n]) ==> !NeedsNamed(sys, NamedKeys(sys, zs[..n]), zs[n])))
  }

  /** Whenever ldd's lines for such objects name everything that x needs, the objects and their
      lines hold every path ldd names for x, but for x itself and its interpreter. */
  ghost predicate LinesCover(sys: System) {
    forall zs, x | Distinct(zs) && EachNew(sys, zs) && x !in zs && Shares(sys, x) && NeedsNamed(sys, NamedKeys(sys, zs), x) ::
      Paths(sys.ldd(x)) <= Members(zs) + {x} + Interp(sys.elf(x).value) + Loaded(sys, zs)
  }

  lemma {:induction false} InsertedKeys(entries: map<Key, string>, o: Object, lines: seq<Line>)
    ensures Inserted(entries, o, lines).Keys == entries.Keys + set l | l in lines :: KeyOf(o, l.soname)
    decreases |lines|
  {
    if lines != [] {
      var n := |lines| - 1;
      InsertedKeys(entries, o, lines[..n]);
      assert lines == lines[..n] + [lines[n]];
    }
  }

  lemma UsesIffNamed(sys: System, entries: map<Key, string>, x: string)
    requires Shares(sys, x)
    ensures UsesCache(entries, sys.elf(x).value, false) <==> NeedsNamed(sys, entries.Keys, x)
  {
  }

  /** The cache after one more object that asks ldd. */
  lemma AskedStep(sys: System, entries: map<Key, string>, x: string)
    requires sys.elf(x).Some? && !UsesCache(entries, sys.elf(x).value, false)
    ensures CacheAfter(entries, sys.elf(x).value, sys.ldd(x), false).Keys == entries.Keys + LineKeys(sys, x)
    ensures Items(sys, false, entries, x) == Paths(sys.ldd(x))
  {
    InsertedKeys(entries, sys.elf(x).value, sys.ldd(x));
  }

  /** Objects that each need something new all ask ldd, so their lines are the cache and what is enqueued. */
  lemma {:induction false} NewOnesAsk(sys: System, zs: seq<string>)
    requires EachNew(sys, zs)
    ensures Fill(sys, zs).Keys == NamedKeys(sys, zs) && Gave(sys, zs) == Loaded(sys, zs)
    decreases |zs|
  {
    if zs != [] {
      var n := |zs| - 1;
      NewOnesAsk(sys, zs[..n]);
      if sys.elf(zs[n]).Some? {
        if Shares(sys, zs[n]) {
          UsesIffNamed(sys, Fill(sys, zs[..n]), zs[n]);
        }
        AskedStep(sys, Fill(sys, zs[..n]), zs[n]);
      }
    }
  }

  /** The objects of zs that ask ldd when zs are processed in order. */
  ghost function Askers(sys: System, zs: seq<string>): seq<string> {
    if zs == [] then []
    else
      var n := |zs| - 1;
      var before := Askers(sys, zs[..n]);
      match sys.elf(zs[n])
      case None => before
      case Some(o) => if UsesCache(Fill(sys, zs[..n]), o, false) then before else before + [zs[n]]
  }

  /** zs, in terms of those of its objects that ask ldd. */
  ghost predicate AskersStandFor(sys: System, zs: seq<string>, ys: seq<string>) {
    && EachNew(sys, ys) && Distinct(ys) && (forall y | y in ys :: y in zs)
    && Fill(sys, zs).Keys == NamedKeys(sys, ys) && Loaded(sys, ys) <= Gave(sys, zs)
  }

  lemma AskersAppend(sys: System, ys: seq<string>, x: string)
    requires EachNew(sys, ys) && Distinct(ys) && x !in ys && (Shares(sys, x) ==> !NeedsNamed(sys, NamedKeys(sys, ys), x))
    ensures EachNew(sys, ys + [x]) && Distinct(ys + [x]) && NamedKeys(sys, ys + [x]) == NamedKeys(sys, ys) + LineKeys(sys, x)
    ensures Loaded(sys, ys + [x]) == Loaded(sys, ys) + if sys.elf(x).Some? then Paths(sys.ldd(x)) else {}
  {
    assert (ys + [x])[..|ys|] == ys;
    DistinctSnoc(ys, x);
  }

  lemma {:induction false} AskersStand(sys: System, zs: seq<string>)
    requires Distinct(zs)
    ensures AskersStandFor(sys, zs, Askers(sys, zs))
    decreases |zs|
  {
    if zs != [] {
      var n := |zs| - 1;
      var x, ys, entries := zs[n], Askers(sys, zs[..n]), Fill(sys, zs[..n]);
      AskersStand(sys, zs[..n]);
      LastIsNew(zs);
      if sys.elf(x).Some? && !UsesCache(entries, sys.elf(x).value, false) {
        if Shares(sys, x) {
          UsesIffNamed(sys, entries, x);
        }
        AskersAppend(sys, ys, x);
        AskedStep(sys, entries, x);
      }
    }
  }

  lemma CoveredCovers(sys: System, zs: seq<string>, x: string)
    requires Covered(sys) && Distinct(zs) && EachNew(sys, zs) && x !in zs && Shares(sys, x) && NeedsNamed(sys, NamedKeys(sys, zs), x)
    ensures Paths(sys.ldd(x)) <= Members(zs) + {x} + Interp(sys.elf(x).value) + Loaded(sys, zs)
  {
    NewOnesAsk(sys, zs);
    UsesIffNamed(sys, Fill(sys, zs), x);
    assert Serves(sys, zs, x);
    forall p | p in Paths(sys.ldd(x)) ensures p in Members(zs) + {x} + Interp(sys.elf(x).value) + Loaded(sys, zs) {
      assert Brings(sys, zs, x, p);
    }
  }

  lemma CoverBrings(sys: System, zs: seq<string>, x: string, p: string)
    requires LinesCover(sys) && Distinct(zs) && Serves(sys, zs, x) && p in Paths(sys.ldd(x))
    ensures Brings(sys, zs, x, p)
  {
    var ys := Askers(sys, zs);
    AskersStand(sys, zs);
    UsesIffNamed(sys, Fill(sys, zs), x);
    assert x !in ys && NeedsNamed(sys, NamedKeys(sys, ys), x);
    assert p in Members(ys) + {x} + Interp(sys.elf(x).value) + Loaded(sys, ys);
  }

  /** What caches can be built and what they bring along follows from the lines alone. */
  lemma CoveredIffLinesCover(sys: System)
    ensures Covered(sys) <==> LinesCover(sys)
  {
    if Covered(sys) {
      forall zs, x | Distinct(zs) && EachNew(sys, zs) && x !in zs && Shares(sys, x) && NeedsNamed(sys, NamedKeys(sys, zs), x)
        ensures Paths(sys.ldd(x)) <= Members(zs) + {x} + Interp(sys.elf(x).value) + Loaded(sys, zs)
      {
        CoveredCovers(sys, zs, x);
      }
    }
    if LinesCover(sys) {
      forall zs, x, p | Distinct(zs) && Serves(sys, zs, x) && p in Paths(sys.ldd(x)) ensures Brings(sys, zs, x, p) {
        CoverBrings(sys, zs, x, p);
      }
    }
  }

  /** For every system in which ldd prints whole closures: the cache is unnoticeable, for all
      roots and all orders, if and only if the needed names and ldd's lines are such that objects
      whose lines name everything another object needs also bring along every path ldd names for it. */
  lemma CacheUnnoticedIffLinesCover(sys: System)
    requires LoaderIsStatic(sys) && LddIsTransitive(sys)
    ensures Unnoticed(sys) <==> LinesCover(sys)
  {
    CacheUnnoticedIffCovered(sys);
    CoveredIffLinesCover(sys);
  }
}

/** enqueue_canonicalized_path with its buffer and cursors (utils/initrd-put/initrd-put.c:161-352). */
module Canonicalize {
  import opened Paths

  const MAXSYMLINKS: nat := 20

  /** The queue items in the order they are enqueued, or the reason for giving up. */
  datatype Outcome = Enqueued(items: seq<string>) | Failed(error: Error)

  function Texts(ps: seq<Path>): seq<string> {
    seq(|ps|, i requires 0 <= i < |ps| => Text(ps[i]))
  }

  /** The loops of suffix_requires_dir_check (lines 161-186). */
  method RequiresDirCheck(end: string) returns (r: bool)
    ensures r == SuffixRequires(end)
  {
    var i := 0;
    while i < |end| && end[i] == '/'
      invariant i <= |end| && SuffixRequires(end) == SuffixRequires(end[i..])
      decreases |end| - i
    {
      ghost var from := i;
      i := SkipAll(end, i);
      if i == |end| {
        return true;
      }
      if end[i] != '.' {
        return false;
      }
      RequiresStep(end[from..], end[i..]);
      i := i + 1;
      if i == |end| || (end[i] == '.' && (i + 1 == |end| || end[i + 1] == '/')) {
        return true;
      }
      assert end[i - 1..][1..] == end[i..];
    }
    return false;
  }

  lemma RequiresStep(s: string, t: string)
    requires s != "" && s[0] == '/' && SkipSlashes(s) == t != "" && t[0] == '.'
    ensures SuffixRequires(s) == (|t| == 1 || (t[1] == '.' && (|t| == 2 || t[2] == '/')) || SuffixRequires(t[1..]))
  {
  }

  method SkipAll(s: string, from: nat) returns (i: nat)
    requires from <= |s|
    ensures from <= i <= |s| && SkipSlashes(s[from..]) == s[i..] && (i < |s| ==> s[i] != '/')
    ensures from < |s| && s[from] == '/' ==> i > from
  {
    i := from;
    while i < |s| && s[i] == '/'
      invariant from <= i <= |s| && SkipSlashes(s[from..]) == SkipSlashes(s[i..])
      invariant i == from ==> s[from..] == s[i..]
    {
      assert s[i..][1..] == s[i + 1..];
      i := i + 1;
    }
  }

  method FindEnd(s: string, from: nat) returns (i: nat)
    requires from <= |s|
    ensures from <= i <= |s| && NameLength(s[from..]) == i - from
  {
    i := from;
    while i < |s| && s[i] != '/'
      invariant from <= i <= |s| && NameLength(s[from..]) == i - from + NameLength(s[i..])
    {
      assert s[i..][1..] == s[i + 1..];
      i := i + 1;
    }
  }

  // ----- the buffer -----

  /** The buffer's text stands for a path, with or without a final slash. */
  ghost predicate Holds(text: string, cur: Path) {
    Plain(cur) && (text == Joined(cur) + "/" || (cur != [] && text == Joined(cur)))
  }

  lemma HoldsLength(text: string, cur: Path)
    requires Holds(text, cur)
    ensures |text| >= 1 && |Joined(cur)| <= |text| <= |Joined(cur)| + 1 && text[0] == '/'
    ensures text[|text| - 1] == '/' <==> text == Joined(cur) + "/"
  {
    if cur != [] {
      JoinedFront(cur);
      var name := cur[|cur| - 1];
      assert Joined(cur) == Joined(cur[..|cur| - 1]) + "/" + name;
      assert name[|name| - 1] in name;
      assert Joined(cur)[|Joined(cur)| - 1] == name[|name| - 1];
    }
  }

  /** The backward scans of lines 261-264 and 320-323. */
  method Pop(rname: array<char>, dest: nat, ghost cur: Path) returns (dest': nat)
    requires dest <= rname.Length && Holds(rname[..dest], cur)
    ensures dest' <= dest && Holds(rname[..dest'], Parent(cur))
  {
    HoldsLength(rname[..dest], cur);
    dest' := dest;
    if dest > 1 {
      dest' := dest - 1;
      while dest' > 0 && rname[dest' - 1] != '/'
        invariant dest' <= dest - 1
        invariant forall k | dest' <= k < dest - 1 :: rname[k] != '/'
      {
        dest' := dest' - 1;
      }
    }
    Popped(rname[..dest], dest', cur);
    assert rname[..dest][..dest'] == rname[..dest'];
  }

  /** The position behind the last slash before the final character is where the last name starts. */
  lemma Popped(text: string, i: nat, cur: Path)
    requires Holds(text, cur) && i <= |text|
    requires if |text| > 1 then i < |text| && (i > 0 ==> text[i - 1] == '/') && forall k | i <= k < |text| - 1 :: text[k] != '/'
             else i == |text|
    ensures Holds(text[..i], Parent(cur))
  {
    HoldsLength(text, cur);
    if cur == [] {
      assert text == "/" && text[..i] == text;
    } else {
      var front, name := cur[..|cur| - 1], cur[|cur| - 1];
      var base := Joined(front) + "/";
      assert Joined(cur) == base + name;
      assert text[|base| - 1] == '/';
      assert forall k | 0 <= k < |name| :: text[|base| + k] == name[k] && name[k] in name;
      assert i == |base|;
      assert text[..i] == base;
    }
  }

  /** Appending a component (lines 266-275). */
  method Push(rname: array<char>, dest: nat, c: string, ghost cur: Path) returns (ok: bool, dest': nat)
    requires rname.Length == BUFFER && dest <= PATH_MAX + 1 && Holds(rname[..dest], cur) && c != "" && '/' !in c
    modifies rname
    ensures ok <==> |Joined(cur)| + 1 + |c| + DIR_SUFFIX <= BUFFER
    ensures ok ==> dest' <= PATH_MAX + 1 && rname[..dest'] == Joined(cur + [c])
  {
    HoldsLength(rname[..dest], cur);
    dest' := dest;
    if rname[dest - 1] != '/' {
      rname[dest] := '/';
      dest' := dest + 1;
    }
    assert rname[..dest'] == Joined(cur) + "/";
    if BUFFER - dest' < |c| + DIR_SUFFIX {
      return false, dest';
    }
    Copy(rname, dest', c);
    dest' := dest' + |c|;
    rname[dest'] := '\0';
    assert rname[..dest'] == Joined(cur) + "/" + c;
    assert (cur + [c])[..|cur|] == cur;
    ok := true;
  }

  method Copy(rname: array<char>, at: nat, s: string)
    requires at + |s| <= rname.Length
    modifies rname
    ensures rname[..at + |s|] == old(rname[..at]) + s
  {
    var i := 0;
    while i < |s|
      invariant i <= |s| && rname[..at + i] == old(rname[..at]) + s[..i]
    {
      rname[at + i] := s[i];
      i := i + 1;
    }
  }

  /** dir_check writes "/./" behind the text, asks for the status of the result and takes it off again (lines 193-205). */
  method DirCheck(fs: FileSystem, rname: array<char>, dest: nat) returns (ok: bool)
    requires rname.Length == BUFFER && dest <= PATH_MAX + 1
    modifies rname
    ensures rname[..dest] == old(rname[..dest]) && ok == IsDir(fs, Components(rname[..dest]))
  {
    rname[dest], rname[dest + 1], rname[dest + 2], rname[dest + 3] := '/', '.', '/', '\0';
    ok := IsDir(fs, Components(rname[..dest]));
    rname[dest] := '\0';
  }

  // ----- one component -----

  datatype Status = Continue | Finished | GaveUp(error: Error)

  lemma ComponentsHeld(cur: Path, c: string)
    requires Plain(cur) && c != "" && '/' !in c
    ensures Plain(cur + [c]) && Components(Joined(cur + [c])) == cur + [c] && Parent(cur + [c]) == cur
    ensures Text(cur + [c]) == Joined(cur + [c])
  {
    ComponentsJoined(cur + [c]);
  }

  /** A link (lines 284-324): the text left is the target and what stood behind the link. */
  method Follow(fs: FileSystem, rname: array<char>, dest: nat, target: string, end: string, links: nat, ghost cur: Path, ghost c: string)
    returns (status: Status, dest': nat, text: string, ghost cur': Path)
    requires rname.Length == BUFFER && dest <= PATH_MAX + 1 && rname[..dest] == Joined(cur + [c]) && Plain(cur)
    requires c != "" && '/' !in c
    modifies rname
    ensures links >= MAXSYMLINKS ==> status == GaveUp(TooManyLinks)
    ensures links < MAXSYMLINKS && PATH_MAX + 1 <= |end| + |target| ==> status == GaveUp(TooLong)
    ensures links < MAXSYMLINKS && PATH_MAX + 1 > |end| + |target| ==> status == Continue
    ensures status == Continue ==> dest' <= PATH_MAX + 1 && Holds(rname[..dest'], cur') && cur' == Base(cur, target) && text == target + end
  {
    ComponentsHeld(cur, c);
    dest', text, cur' := dest, end, cur;
    if links + 1 > MAXSYMLINKS {
      return GaveUp(TooManyLinks), dest', text, cur';
    }
    if PATH_MAX + 1 <= |end| + |target| {
      return GaveUp(TooLong), dest', text, cur';
    }
    text, cur' := target + end, Base(cur, target);
    if target != "" && target[0] == '/' {
      rname[0] := '/';
      dest' := 1;
      assert rname[..1] == Joined([]) + "/";
    } else {
      dest' := Pop(rname, dest', cur + [c]);
    }
    status := Continue;
  }

  /** No link (lines 325-329). */
  method Keep(fs: FileSystem, rname: array<char>, dest: nat, end: string, ghost p: Path) returns (ok: bool)
    requires rname.Length == BUFFER && dest <= PATH_MAX + 1 && Components(rname[..dest]) == p && (p in fs ==> !fs[p].Link?)
    modifies rname
    ensures rname[..dest] == old(rname[..dest]) && (ok <==> p in fs && (SuffixRequires(end) ==> IsDir(fs, p)))
  {
    var path := Components(rname[..dest]);
    var needsDir := RequiresDirCheck(end);
    if needsDir {
      ok := DirCheck(fs, rname, dest);
    } else {
      ok := path in fs;
    }
  }

  /** What an ordinary component leads to. */
  ghost predicate Entered(fs: FileSystem, links: nat, cur: Path, c: string, end: string, status: Status, cur': Path, text: string, followed: seq<Path>) {
    var p := cur + [c];
    if |Joined(cur)| + 1 + |c| + DIR_SUFFIX > BUFFER then status == GaveUp(TooLong)
    else if p !in fs then status == GaveUp(Missing)
    else if fs[p].Link? then
      var target := fs[p].target;
      if links >= MAXSYMLINKS then status == GaveUp(TooManyLinks)
      else if PATH_MAX + 1 <= |end| + |target| then status == GaveUp(TooLong)
      else status == Continue && cur' == Base(cur, target) && text == target + end && followed == [p]
    else if SuffixRequires(end) && !IsDir(fs, p) then status == GaveUp(Missing)
    else status == Continue && cur' == p && text == end && followed == []
  }

  /** An ordinary component (lines 266-329). */
  method Enter(fs: FileSystem, rname: array<char>, dest: nat, c: string, end: string, links: nat, ghost cur: Path)
    returns (status: Status, dest': nat, text: string, linked: seq<string>, ghost cur': Path, ghost followed: seq<Path>)
    requires rname.Length == BUFFER && dest <= PATH_MAX + 1 && Holds(rname[..dest], cur) && c != "" && '/' !in c
    modifies rname
    ensures Entered(fs, links, cur, c, end, status, cur', text, followed)
    ensures status == Continue ==> dest' <= PATH_MAX + 1 && Holds(rname[..dest'], cur') && linked == Texts(followed)
  {
    var ok: bool;
    ok, dest' := Push(rname, dest, c, cur);
    text, linked, cur', followed := end, [], cur + [c], [];
    if !ok {
      status := GaveUp(TooLong);
      return;
    }
    ComponentsHeld(cur, c);
    var path := Components(rname[..dest']);
    if path in fs && fs[path].Link? {
      linked, followed := [rname[..dest']], [cur'];
      status, dest', text, cur' := Follow(fs, rname, dest', fs[path].target, end, links, cur, c);
    } else {
      ok := Keep(fs, rname, dest', end, cur');
      status := if ok then Continue else GaveUp(Missing);
    }
  }

  lemma EnteredIsCanon(fs: FileSystem, links: nat, cur: Path, c: string, end: string, status: Status, cur': Path, text: string, followed: seq<Path>)
    requires Entered(fs, links, cur, c, end, status, cur', text, followed) && links <= MAXSYMLINKS
    requires c != "" && c != "." && c != ".."
    ensures status.GaveUp? || status == Continue
    ensures status.GaveUp? ==> CanonAt(fs, MAXSYMLINKS - links, cur, c, end) == Err(status.error)
    ensures status == Continue ==>
              && |followed| <= 1 && links + |followed| <= MAXSYMLINKS && (followed == [] ==> text == end)
              && CanonAt(fs, MAXSYMLINKS - links, cur, c, end) == After(followed, Canon(fs, MAXSYMLINKS - links - |followed|, cur', text))
  {
    Nothing(Canon(fs, MAXSYMLINKS - links, cur', text));
  }

  lemma Nothing(r: Result)
    ensures After([], r) == r
  {
    if r.Ok? {
      assert [] + r.links == r.links;
    }
  }

  // ----- the loop -----

  /** What one turn of the loop does to the state of Canon. */
  ghost predicate Turned(fs: FileSystem, links: nat, cur: Path, text: string, status: Status, cur': Path, text': string, followed: seq<Path>)
    requires links <= MAXSYMLINKS
  {
    var r := Canon(fs, MAXSYMLINKS - links, cur, text);
    match status
    case Finished => r == Ok(cur, [])
    case GaveUp(e) => r == Err(e)
    case Continue =>
      && links + |followed| <= MAXSYMLINKS
      && r == After(followed, Canon(fs, MAXSYMLINKS - links - |followed|, cur', text'))
      && (|followed| == 0 ==> |text'| < |text|)
  }

  lemma TurnedByDots(fs: FileSystem, links: nat, cur: Path, text: string, s: string, n: nat, cur': Path)
    requires links <= MAXSYMLINKS && SkipSlashes(text) == s != "" && NameLength(s) == n
    requires (s[..n] == "." && cur' == cur) || (s[..n] == ".." && cur' == Parent(cur))
    ensures Turned(fs, links, cur, text, Continue, cur', s[n..], [])
  {
    CanonStep(fs, MAXSYMLINKS - links, cur, text, s, n);
    Nothing(Canon(fs, MAXSYMLINKS - links, cur', s[n..]));
  }

  lemma TurnedByName(fs: FileSystem, links: nat, cur: Path, text: string, s: string, n: nat, status: Status, cur': Path, text': string,
                     followed: seq<Path>)
    requires links <= MAXSYMLINKS && SkipSlashes(text) == s != "" && NameLength(s) == n && s[..n] != "." && s[..n] != ".."
    requires Entered(fs, links, cur, s[..n], s[n..], status, cur', text', followed)
    ensures Turned(fs, links, cur, text, status, cur', text', followed)
  {
    CanonStep(fs, MAXSYMLINKS - links, cur, text, s, n);
    EnteredIsCanon(fs, links, cur, s[..n], s[n..], status, cur', text', followed);
  }

  /** One turn of the loop (lines 242-330); links and items grow by what linked holds. */
  method Turn(fs: FileSystem, rname: array<char>, dest: nat, text: string, start: nat, links: nat, ghost cur: Path)
    returns (status: Status, dest': nat, text': string, start': nat, linked: seq<string>, ghost cur': Path, ghost followed: seq<Path>)
    requires rname.Length == BUFFER && dest <= PATH_MAX + 1 && Holds(rname[..dest], cur) && links <= MAXSYMLINKS && start <= |text|
    modifies rname
    ensures start' <= |text'| && Turned(fs, links, cur, text[start..], status, cur', text'[start'..], followed)
    ensures !status.GaveUp? ==> dest' <= PATH_MAX + 1 && Holds(rname[..dest'], cur') && linked == Texts(followed)
    ensures status == Finished ==> cur' == cur && followed == []
  {
    dest', text', linked, cur', followed := dest, text, [], cur, [];
    var from := SkipAll(text, start);
    var end := FindEnd(text, from);
    start' := end;
    ghost var s, n := text[from..], end - from;
    if end == from {
      NoName(s);
      return Finished, dest', text', start', linked, cur', followed;
    }
    Slices(text, from, end);
    NameIsPlain(s);
    Dots(text[from..end]);
    if end - from == 1 && text[from] == '.' {
      TurnedByDots(fs, links, cur, text[start..], s, n, cur);
      status := Continue;
    } else if end - from == 2 && text[from] == '.' && text[from + 1] == '.' {
      dest' := Pop(rname, dest, cur);
      cur' := Parent(cur);
      TurnedByDots(fs, links, cur, text[start..], s, n, cur');
      status := Continue;
    } else {
      status, dest', text', linked, cur', followed := Enter(fs, rname, dest, text[from..end], text[end..], links, cur);
      start' := 0;
      TurnedByName(fs, links, cur, text[start..], s, n, status, cur', text', followed);
      Slices(text', 0, |text'|);
    }
  }

  lemma Slices(text: string, from: nat, end: nat)
    requires from <= end <= |text|
    ensures text[from..][..end - from] == text[from..end] && text[from..][end - from..] == text[end..] && text[0..] == text
  {
  }

  lemma Dots(c: string)
    ensures c == "." <==> |c| == 1 && c[0] == '.'
    ensures c == ".." <==> |c| == 2 && c[0] == c[1] == '.'
  {
  }

  lemma NoName(s: string)
    requires NameLength(s) == 0 && (s != "" ==> s[0] != '/')
    ensures s == ""
  {
  }

  lemma {:induction false} NameIsPlain(s: string)
    ensures '/' !in s[..NameLength(s)]
    decreases |s|
  {
    if s != "" && s[0] != '/' {
      NameIsPlain(s[1..]);
      var n := NameLength(s[1..]);
      assert s[..n + 1] == [s[0]] + s[1..][..n];
    }
  }

  function StartOf(cwd: Path, name: string): Path {
    if name != "" && name[0] == '/' then [] else cwd
  }

  function Reported(r: Result): Outcome {
    match r
    case Ok(p, links) => Enqueued(Texts(links) + [Text(p)])
    case Err(e) => Failed(e)
  }

  lemma AfterBoth(a: seq<Path>, b: seq<Path>, r: Result)
    ensures After(a, After(b, r)) == After(a + b, r) && Texts(a + b) == Texts(a) + Texts(b)
  {
    if r.Ok? {
      assert a + (b + r.links) == a + b + r.links;
    }
  }

  /** The whole loop (lines 238-331); the items are the links followed. */
  method Loop(fs: FileSystem, rname: array<char>, dest0: nat, name: string, ghost cur0: Path)
    returns (error: Status, dest: nat, items: seq<string>, ghost r: Result)
    requires rname.Length == BUFFER && dest0 <= PATH_MAX + 1 && Holds(rname[..dest0], cur0)
    modifies rname
    ensures r == Canon(fs, MAXSYMLINKS, cur0, name)
    ensures r.Err? ==> error == GaveUp(r.error)
    ensures r.Ok? ==> error == Finished && dest <= PATH_MAX + 1 && Holds(rname[..dest], r.path) && items == Texts(r.links)
  {
    ghost var cur, followed := cur0, [];
    r := Canon(fs, MAXSYMLINKS, cur0, name);
    var text, start, links := name, 0, 0;
    dest, items := dest0, [];
    Nothing(r);
    assert text[0..] == text;
    while start < |text|
      invariant start <= |text| && links == |followed| <= MAXSYMLINKS && dest <= PATH_MAX + 1 && Holds(rname[..dest], cur)
      invariant items == Texts(followed) && r == After(followed, Canon(fs, MAXSYMLINKS - links, cur, text[start..]))
      decreases MAXSYMLINKS - links, |text| - start
    {
      ghost var before := cur;
      var status, linked;
      ghost var more;
      status, dest, text, start, linked, cur, more := Turn(fs, rname, dest, text, start, links, cur);
      if status.GaveUp? {
        return status, dest, items, r;
      }
      if status == Finished {
        assert followed + [] == followed;
        return Finished, dest, items, r;
      }
      AfterBoth(followed, more, Canon(fs, MAXSYMLINKS - links - |more|, cur, text[start..]));
      items, links, followed := items + linked, links + |linked|, followed + more;
    }
    assert followed + [] == followed;
    return Finished, dest, items, r;
  }

  lemma PlainPath(fs: FileSystem, p: Path)
    requires WellFormed(fs) && p in fs
    ensures Plain(p)
  {
    PrefixesAreDirs(fs, p);
  }

  /** The start of the buffer (lines 229-236). */
  method Begin(fs: FileSystem, rname: array<char>, cwd: Path, name: string) returns (dest: nat)
    requires rname.Length == BUFFER && WellFormed(fs) && cwd in fs && |Text(cwd)| < PATH_MAX && name != ""
    modifies rname
    ensures dest <= PATH_MAX + 1 && Holds(rname[..dest], StartOf(cwd, name))
  {
    if name[0] != '/' {
      PlainPath(fs, cwd);
      Copy(rname, 0, Text(cwd));
      dest := |Text(cwd)|;
      assert rname[..dest] == Text(cwd);
    } else {
      rname[0] := '/';
      dest := 1;
      assert rname[..dest] == Joined([]) + "/";
    }
  }

  /** The end of the buffer (lines 332-333). */
  method Finish(rname: array<char>, dest: nat, ghost p: Path) returns (text: string)
    requires dest <= rname.Length && Holds(rname[..dest], p)
    ensures text == Text(p)
  {
    HoldsLength(rname[..dest], p);
    if dest > 1 && rname[dest - 1] == '/' {
      text := rname[..dest - 1];
    } else {
      text := rname[..dest];
    }
  }

  /** enqueue_canonicalized_path (lines 207-352) computes Canon. */
  method EnqueueCanonicalized(fs: FileSystem, cwd: Path, name: string) returns (r: Outcome)
    requires WellFormed(fs) && IsDir(fs, cwd) && |Text(cwd)| < PATH_MAX
    ensures r == if name == "" then Failed(Missing) else Reported(Canon(fs, MAXSYMLINKS, StartOf(cwd, name), name))
  {
    if name == "" {
      return Failed(Missing);
    }
    var rname := new char[BUFFER];
    var dest := Begin(fs, rname, cwd, name);
    var status, items;
    ghost var result;
    status, dest, items, result := Loop(fs, rname, dest, name, StartOf(cwd, name));
    if status.GaveUp? {
      return Failed(status.error);
    }
    var text := Finish(rname, dest, result.path);
    return Enqueued(items + [text]);
  }

  /** Where the function succeeds, what it enqueues is what resolution with at most 20 links gives: every link
      followed, and then a path without links or dots.  Where it fails for another reason than the length of a
      text, resolution fails for the same reason. */
  lemma EnqueuedIsResolved(fs: FileSystem, cwd: Path, name: string)
    requires WellFormed(fs) && IsDir(fs, cwd) && name != ""
    ensures var r, s := Canon(fs, MAXSYMLINKS, StartOf(cwd, name), name), Resolve(fs, 20, if name[0] == '/' then [] else cwd, name);
            && (r == s || r == Err(TooLong)) && s != Err(TooLong)
            && (r.Ok? ==> Canonical(fs, r.path) && forall l | l in r.links :: l in fs && fs[l].Link?)
  {
    CanonIsResolve(fs, MAXSYMLINKS, StartOf(cwd, name), name);
    ResolveReaches(fs, MAXSYMLINKS, StartOf(cwd, name), name);
    NeverTooLong(fs, Components, MAXSYMLINKS, StartOf(cwd, name), Components(name));
  }

  /** With paths of at most m and targets of at most t characters, a name of at most 4096 - m - 20 t is enqueued
      exactly as it resolves. */
  lemma ShortIsEnqueued(fs: FileSystem, cwd: Path, name: string, m: nat, t: nat)
    requires WellFormed(fs) && IsDir(fs, cwd) && name != "" && Short(fs, m, t) && m + |name| + 20 * t <= 4096
    ensures var r := Resolve(fs, 20, if name[0] == '/' then [] else cwd, name);
            Reported(Canon(fs, MAXSYMLINKS, StartOf(cwd, name), name)) ==
              if r.Ok? then Enqueued(seq(|r.links|, i requires 0 <= i < |r.links| => Text(r.links[i])) + [Text(r.path)])
              else Failed(r.error)
  {
    ShortIsResolve(fs, MAXSYMLINKS, StartOf(cwd, name), name, m, t);
    var r := Resolve(fs, 20, if name[0] == '/' then [] else cwd, name);
    if r.Ok? {
      assert Texts(r.links) == seq(|r.links|, i requires 0 <= i < |r.links| => Text(r.links[i]));
    }
  }

  lemma {:induction false} NeverTooLong(fs: FileSystem, parse: string -> seq<string>, left: nat, cur: Path, cs: seq<string>)
    ensures Walk(fs, parse, left, cur, cs) != Err(TooLong)
    decreases left, |cs|
  {
    if cs != [] && IsDir(fs, cur) {
      var c, rest := cs[0], cs[1..];
      if c == "." {
        NeverTooLong(fs, parse, left, cur, rest);
      } else if c == ".." {
        NeverTooLong(fs, parse, left, Parent(cur), rest);
      } else if cur + [c] in fs && !fs[cur + [c]].Link? {
        NeverTooLong(fs, parse, left, cur + [c], rest);
      } else if cur + [c] in fs && left > 0 {
        var target := fs[cur + [c]].target;
        NeverTooLong(fs, parse, left - 1, Base(cur, target), parse(target) + rest);
      }
    }
  }
}

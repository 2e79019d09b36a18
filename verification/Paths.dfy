/** Path resolution over a model of the file system, and what the buffers of
    enqueue_canonicalized_path (utils/initrd-put/initrd-put.c:148-352) make of it. */
module Paths {
  datatype Node = Dir | File | Link(target: string)

  /** Directory entries by the names that lead to them from the root. */
  type Path = seq<string>
  type FileSystem = map<Path, Node>

  const PATH_MAX: nat := 4096

  predicate ValidName(s: string) {
    s != "" && '/' !in s && s != "." && s != ".."
  }

  ghost predicate WellFormed(fs: FileSystem) {
    && [] in fs && fs[[]] == Dir
    && (forall p {:trigger Parent(p)} | p in fs && p != [] :: ValidName(p[|p| - 1]) && Parent(p) in fs && fs[Parent(p)] == Dir)
    && forall p | p in fs && fs[p].Link? :: |fs[p].target| <= PATH_MAX
  }

  predicate IsDir(fs: FileSystem, p: Path) {
    p in fs && fs[p] == Dir
  }

  function Parent(p: Path): Path {
    if p == [] then [] else p[..|p| - 1]
  }

  // ----- results -----

  datatype Error = Missing | TooManyLinks | TooLong

  /** links are the symbolic links followed, first to last. */
  datatype Result = Ok(path: Path, links: seq<Path>) | Err(error: Error)

  function After(links: seq<Path>, r: Result): Result {
    match r
    case Ok(p, more) => Ok(p, links + more)
    case Err(e) => Err(e)
  }

  // ----- resolution, one component after another -----

  /** Every component is looked up in a directory; "." and ".." need one too.  parse gives a target's components. */
  function Walk(fs: FileSystem, parse: string -> seq<string>, left: nat, cur: Path, components: seq<string>): Result
    decreases left, |components|
  {
    if components == [] then Ok(cur, [])
    else if !IsDir(fs, cur) then Err(Missing)
    else
      var c, rest := components[0], components[1..];
      if c == "." then Walk(fs, parse, left, cur, rest)
      else if c == ".." then Walk(fs, parse, left, Parent(cur), rest)
      else if cur + [c] !in fs then Err(Missing)
      else match fs[cur + [c]]
           case Link(target) =>
             if left == 0 then Err(TooManyLinks)
             else After([cur + [c]], Walk(fs, parse, left - 1, Base(cur, target), parse(target) + rest))
           case _ => Walk(fs, parse, left, cur + [c], rest)
  }

  /** Where a link's target starts from. */
  function Base(dir: Path, target: string): Path {
    if target != "" && target[0] == '/' then [] else dir
  }

  function SkipSlashes(s: string): (r: string)
    ensures |r| <= |s| && (r != "" ==> r[0] != '/')
  {
    if s != "" && s[0] == '/' then SkipSlashes(s[1..]) else s
  }

  /** The length of the leading component. */
  function NameLength(s: string): (n: nat)
    ensures n <= |s|
  {
    if s == "" || s[0] == '/' then 0 else 1 + NameLength(s[1..])
  }

  /** The components of a text; a trailing slash counts as ".". */
  function Components(s: string): seq<string>
    decreases |s|
  {
    var t := SkipSlashes(s);
    if t == "" then (if s == "" then [] else ["."])
    else
      var n := NameLength(t);
      [t[..n]] + Components(t[n..])
  }

  /** Path resolution that follows at most left links. */
  function Resolve(fs: FileSystem, left: nat, cur: Path, text: string): Result {
    Walk(fs, Components, left, cur, Components(text))
  }

  // ----- what the function computes on texts -----

  const BUFFER: nat := PATH_MAX + 5
  const DIR_SUFFIX: nat := 4

  /** The text of a path without a final slash; empty for the root. */
  function Joined(p: Path): string {
    if p == [] then "" else Joined(p[..|p| - 1]) + "/" + p[|p| - 1]
  }

  function Text(p: Path): string {
    if p == [] then "/" else Joined(p)
  }

  /** suffix_requires_dir_check (lines 161-186): behind the slashes and "." components there is nothing, or "..". */
  predicate SuffixRequires(end: string)
    decreases |end|
  {
    end != "" && end[0] == '/' &&
    var t := SkipSlashes(end);
    if t == "" then true
    else if t[0] != '.' then false
    else if |t| == 1 then true
    else if t[1] == '.' && (|t| == 2 || t[2] == '/') then true
    else SuffixRequires(t[1..])
  }

  /** The loop of enqueue_canonicalized_path (lines 238-331) from a place and a remaining text on. */
  function Canon(fs: FileSystem, left: nat, cur: Path, text: string): Result
    decreases left, |text|, 1
  {
    var s := SkipSlashes(text);
    if s == "" then Ok(cur, [])
    else
      var n := NameLength(s);
      CanonAt(fs, left, cur, s[..n], s[n..])
  }

  /** One turn, for the component c and the text behind it. */
  function CanonAt(fs: FileSystem, left: nat, cur: Path, c: string, end: string): Result
    requires c != ""
    decreases left, |c| + |end|, 0
  {
    if c == "." then Canon(fs, left, cur, end)
    else if c == ".." then Canon(fs, left, Parent(cur), end)
    else if BUFFER < |Joined(cur)| + 1 + |c| + DIR_SUFFIX then Err(TooLong)
    else if cur + [c] !in fs then Err(Missing)
    else match fs[cur + [c]]
         case Link(target) =>
           if left == 0 then Err(TooManyLinks)
           else if PATH_MAX + 1 <= |end| + |target| then Err(TooLong)
           else After([cur + [c]], Canon(fs, left - 1, Base(cur, target), target + end))
         case Dir => Canon(fs, left, cur + [c], end)
         case File => if SuffixRequires(end) then Err(Missing) else Canon(fs, left, cur + [c], end)
  }

  // ----- texts and components -----

  /** What may stand behind a component. */
  predicate IsEnd(s: string) {
    s == "" || s[0] == '/'
  }

  lemma {:induction false} SkipAppend(t: string, e: string)
    ensures SkipSlashes(t) == "" ==> SkipSlashes(t + e) == SkipSlashes(e)
    ensures SkipSlashes(t) != "" ==> SkipSlashes(t + e) == SkipSlashes(t) + e
    decreases |t|
  {
    if t == "" {
      assert t + e == e;
    } else if t[0] == '/' {
      assert (t + e)[1..] == t[1..] + e;
      SkipAppend(t[1..], e);
    }
  }

  lemma {:induction false} NameAppend(t: string, e: string)
    requires IsEnd(e)
    ensures NameLength(t + e) == NameLength(t)
    decreases |t|
  {
    if t == "" {
      assert t + e == e;
    } else if t[0] != '/' {
      assert (t + e)[1..] == t[1..] + e;
      NameAppend(t[1..], e);
    }
  }

  lemma ComponentsName(s: string, t: string, n: nat)
    requires SkipSlashes(s) == t != "" && NameLength(t) == n
    ensures Components(s) == [t[..n]] + Components(t[n..])
  {
  }

  lemma ComponentsSlash(s: string)
    requires SkipSlashes(s) == ""
    ensures Components(s) == if s == "" then [] else ["."]
  {
  }

  lemma SplitAppend(u: string, e: string, n: nat)
    requires n <= |u|
    ensures (u + e)[..n] == u[..n] && (u + e)[n..] == u[n..] + e
  {
  }

  // ----- splicing a link's target -----

  ghost predicate Same(fs: FileSystem, parse: string -> seq<string>, a: seq<string>, b: seq<string>) {
    forall left: nat, cur :: Walk(fs, parse, left, cur, a) == Walk(fs, parse, left, cur, b)
  }

  lemma {:induction false} SameBehind(fs: FileSystem, parse: string -> seq<string>, before: seq<string>, a: seq<string>, b: seq<string>,
                                      left: nat, cur: Path)
    requires Same(fs, parse, a, b) && (a == [] <==> b == [])
    ensures Walk(fs, parse, left, cur, before + a) == Walk(fs, parse, left, cur, before + b)
    decreases left, |before|
  {
    if before == [] {
      assert before + a == a && before + b == b;
    } else if IsDir(fs, cur) {
      var c, rest := before[0], before[1..];
      assert (before + a)[1..] == rest + a && (before + b)[1..] == rest + b;
      if c == "." {
        SameBehind(fs, parse, rest, a, b, left, cur);
      } else if c == ".." {
        SameBehind(fs, parse, rest, a, b, left, Parent(cur));
      } else if cur + [c] in fs && fs[cur + [c]].Link? {
        if left > 0 {
          var target := fs[cur + [c]].target;
          assert parse(target) + (rest + a) == parse(target) + rest + a;
          assert parse(target) + (rest + b) == parse(target) + rest + b;
          SameBehind(fs, parse, parse(target) + rest, a, b, left - 1, Base(cur, target));
        }
      } else {
        SameBehind(fs, parse, rest, a, b, left, cur + [c]);
      }
    }
  }

  lemma SameAfter(fs: FileSystem, parse: string -> seq<string>, name: string, a: seq<string>, b: seq<string>)
    requires Same(fs, parse, a, b) && (a == [] <==> b == [])
    ensures Same(fs, parse, [name] + a, [name] + b)
  {
    forall left: nat, cur ensures Walk(fs, parse, left, cur, [name] + a) == Walk(fs, parse, left, cur, [name] + b) {
      SameBehind(fs, parse, [name], a, b, left, cur);
    }
  }

  lemma DotIsSame(fs: FileSystem, parse: string -> seq<string>, cs: seq<string>)
    requires cs != []
    ensures Same(fs, parse, cs, ["."] + cs)
  {
    assert (["."] + cs)[1..] == cs;
  }

  lemma NoComponents(s: string)
    ensures Components(s) == [] <==> s == ""
  {
  }

  /** Putting a link's text in front of what is left gives what putting its components there gives. */
  lemma {:induction false} Splice(fs: FileSystem, parse: string -> seq<string>, t: string, e: string)
    requires IsEnd(e)
    ensures Same(fs, parse, Components(t + e), Components(t) + Components(e))
    decreases |t|
  {
    SkipAppend(t, e);
    var u := SkipSlashes(t);
    if u == "" {
      SpliceSlashes(fs, parse, t, e);
    } else {
      var n := NameLength(u);
      NameAppend(u, e);
      SplitAppend(u, e, n);
      ComponentsName(t, u, n);
      ComponentsName(t + e, u + e, n);
      Splice(fs, parse, u[n..], e);
      NoComponents(u[n..] + e);
      NoComponents(u[n..]);
      NoComponents(e);
      SpliceName(fs, parse, u[..n], Components(u[n..] + e), Components(u[n..]), Components(e));
    }
  }

  lemma SpliceSlashes(fs: FileSystem, parse: string -> seq<string>, t: string, e: string)
    requires IsEnd(e) && SkipSlashes(t) == "" && SkipSlashes(t + e) == SkipSlashes(e)
    ensures Same(fs, parse, Components(t + e), Components(t) + Components(e))
  {
    ComponentsSlash(t);
    if e == "" {
      assert t + e == t && Components(t) + Components(e) == Components(t);
    } else if t == "" {
      assert t + e == e && Components(t) + Components(e) == Components(e);
    } else {
      SameStart(t + e, e);
      DotIsSame(fs, parse, Components(e));
    }
  }

  lemma SameStart(s: string, t: string)
    requires SkipSlashes(s) == SkipSlashes(t) && s != "" && t != ""
    ensures Components(s) == Components(t) && Components(t) != []
  {
  }

  lemma SpliceName(fs: FileSystem, parse: string -> seq<string>, name: string, both: seq<string>, a: seq<string>, b: seq<string>)
    requires Same(fs, parse, both, a + b) && (both == [] <==> a == [] && b == [])
    ensures Same(fs, parse, [name] + both, [name] + a + b)
  {
    SameAfter(fs, parse, name, both, a + b);
    assert [name] + (a + b) == [name] + a + b;
  }

  // ----- the text form refines the component form -----

  /** The place reached exists and is no link; a file is not followed by something that needs a directory. */
  ghost predicate Fine(fs: FileSystem, cur: Path, text: string) {
    && cur in fs && !fs[cur].Link?
    && (fs[cur].File? ==> IsEnd(text) && !SuffixRequires(text))
  }

  ghost predicate Agrees(fs: FileSystem, left: nat, cur: Path, text: string) {
    Canon(fs, left, cur, text) == Err(TooLong) || Canon(fs, left, cur, text) == Resolve(fs, left, cur, text)
  }

  lemma WalkStep(fs: FileSystem, parse: string -> seq<string>, left: nat, cur: Path, c: string, rest: seq<string>)
    ensures var r := Walk(fs, parse, left, cur, [c] + rest);
            if !IsDir(fs, cur) then r == Err(Missing)
            else if c == "." then r == Walk(fs, parse, left, cur, rest)
            else if c == ".." then r == Walk(fs, parse, left, Parent(cur), rest)
            else if cur + [c] !in fs then r == Err(Missing)
            else match fs[cur + [c]]
                 case Link(target) =>
                   if left == 0 then r == Err(TooManyLinks)
                   else r == After([cur + [c]], Walk(fs, parse, left - 1, Base(cur, target), parse(target) + rest))
                 case _ => r == Walk(fs, parse, left, cur + [c], rest)
  {
    assert ([c] + rest)[1..] == rest;
  }

  lemma CanonStep(fs: FileSystem, left: nat, cur: Path, text: string, s: string, n: nat)
    requires SkipSlashes(text) == s != "" && NameLength(s) == n
    ensures n > 0 && Canon(fs, left, cur, text) == CanonAt(fs, left, cur, s[..n], s[n..])
  {
  }

  lemma {:induction false} NameEnds(s: string)
    ensures IsEnd(s[NameLength(s)..])
    decreases |s|
  {
    if s != "" && s[0] != '/' {
      NameEnds(s[1..]);
      assert s[NameLength(s)..] == s[1..][NameLength(s[1..])..];
    }
  }

  lemma NothingLeft(fs: FileSystem, left: nat, cur: Path, text: string)
    requires Fine(fs, cur, text) && SkipSlashes(text) == ""
    ensures Agrees(fs, left, cur, text)
  {
    ComponentsSlash(text);
    if text != "" {
      assert SuffixRequires(text);
      WalkStep(fs, Components, left, cur, ".", []);
      assert ["."] + [] == ["."];
    }
  }

  lemma FineDot(fs: FileSystem, cur: Path, text: string, s: string)
    requires Fine(fs, cur, text) && SkipSlashes(text) == s != "" && NameLength(s) == 1 && s[0] == '.'
    ensures Fine(fs, cur, s[1..]) && (fs[cur].File? ==> s[1..] != "")
  {
    NameEnds(s);
  }

  lemma FineDotDot(fs: FileSystem, cur: Path, text: string, s: string)
    requires WellFormed(fs) && Fine(fs, cur, text) && SkipSlashes(text) == s != "" && NameLength(s) == 2 && s[0] == s[1] == '.'
    ensures IsDir(fs, cur) && forall end :: Fine(fs, Parent(cur), end)
  {
    NameEnds(s);
    if |s| > 2 {
      assert s[2..][0] == '/';
    }
  }

  lemma FineTurn(fs: FileSystem, cur: Path, text: string, s: string, n: nat)
    requires WellFormed(fs) && Fine(fs, cur, text) && SkipSlashes(text) == s != "" && NameLength(s) == n
    ensures s[..n] == "." ==> Fine(fs, cur, s[n..]) && (!IsDir(fs, cur) ==> s[n..] != "")
    ensures s[..n] == ".." ==> IsDir(fs, cur) && Fine(fs, Parent(cur), s[n..])
  {
    if s[..n] == "." {
      assert s[0] == s[..n][0];
      FineDot(fs, cur, text, s);
    } else if s[..n] == ".." {
      assert s[0] == s[..n][0] && s[1] == s[..n][1];
      FineDotDot(fs, cur, text, s);
    }
  }

  /** What the buffers compute is component-by-component resolution, unless a text outgrows its buffer. */
  lemma {:induction false} CanonIsResolve(fs: FileSystem, left: nat, cur: Path, text: string)
    requires WellFormed(fs) && Fine(fs, cur, text)
    ensures Agrees(fs, left, cur, text)
    decreases left, |text|, 3
  {
    var s := SkipSlashes(text);
    if s == "" {
      NothingLeft(fs, left, cur, text);
    } else {
      var n := NameLength(s);
      CanonStep(fs, left, cur, text, s, n);
      NameEnds(s);
      ComponentsName(text, s, n);
      FineTurn(fs, cur, text, s, n);
      TurnAgrees(fs, left, cur, s[..n], s[n..], text);
    }
  }

  lemma {:induction false} TurnAgrees(fs: FileSystem, left: nat, cur: Path, c: string, end: string, text: string)
    requires WellFormed(fs) && cur in fs && c != "" && IsEnd(end) && |end| < |text|
    requires Components(text) == [c] + Components(end) && Canon(fs, left, cur, text) == CanonAt(fs, left, cur, c, end)
    requires c == "." ==> Fine(fs, cur, end) && (!IsDir(fs, cur) ==> end != "")
    requires c == ".." ==> IsDir(fs, cur) && Fine(fs, Parent(cur), end)
    ensures Agrees(fs, left, cur, text)
    decreases left, |text|, 2
  {
    if c == "." {
      CanonIsResolve(fs, left, cur, end);
      AgreesDot(fs, left, cur, text, end);
    } else if c == ".." {
      CanonIsResolve(fs, left, Parent(cur), end);
      AgreesDotDot(fs, left, cur, text, end);
    } else {
      NameAgrees(fs, left, cur, c, end, text);
    }
  }

  lemma {:induction false} NameAgrees(fs: FileSystem, left: nat, cur: Path, c: string, end: string, text: string)
    requires WellFormed(fs) && cur in fs && c != "" && c != "." && c != ".." && IsEnd(end) && |end| < |text|
    requires Components(text) == [c] + Components(end) && Canon(fs, left, cur, text) == CanonAt(fs, left, cur, c, end)
    ensures Agrees(fs, left, cur, text)
    decreases left, |text|, 1
  {
    if cur + [c] in fs {
      BelowDir(fs, cur, c);
    }
    if cur + [c] !in fs || (fs[cur + [c]].Link? && left == 0) {
      AgreesAtOnce(fs, left, cur, c, end, text);
    } else if fs[cur + [c]].Link? {
      LinkAgrees(fs, left, cur, c, end, text);
    } else {
      EntryAgrees(fs, left, cur, c, end, text);
    }
  }

  lemma BelowDir(fs: FileSystem, cur: Path, c: string)
    requires WellFormed(fs) && cur + [c] in fs
    ensures IsDir(fs, cur)
  {
    assert Parent(cur + [c]) == cur;
  }

  lemma FineBase(fs: FileSystem, cur: Path, target: string, text: string)
    requires WellFormed(fs) && IsDir(fs, cur)
    ensures Fine(fs, Base(cur, target), text)
  {
  }

  lemma {:induction false} LinkAgrees(fs: FileSystem, left: nat, cur: Path, c: string, end: string, text: string)
    requires WellFormed(fs) && IsDir(fs, cur) && c != "" && c != "." && c != ".." && IsEnd(end) && |end| < |text|
    requires Components(text) == [c] + Components(end) && Canon(fs, left, cur, text) == CanonAt(fs, left, cur, c, end)
    requires cur + [c] in fs && fs[cur + [c]].Link? && left > 0
    ensures Agrees(fs, left, cur, text)
    decreases left, |text|, 0
  {
    var t := fs[cur + [c]].target;
    FineBase(fs, cur, t, t + end);
    CanonIsResolve(fs, left - 1, Base(cur, t), t + end);
    AgreesLink(fs, left, cur, c, end, text);
  }

  lemma {:induction false} EntryAgrees(fs: FileSystem, left: nat, cur: Path, c: string, end: string, text: string)
    requires WellFormed(fs) && IsDir(fs, cur) && c != "" && c != "." && c != ".." && IsEnd(end) && |end| < |text|
    requires Components(text) == [c] + Components(end) && Canon(fs, left, cur, text) == CanonAt(fs, left, cur, c, end)
    requires cur + [c] in fs && !fs[cur + [c]].Link?
    ensures Agrees(fs, left, cur, text)
    decreases left, |text|, 0
  {
    if Fine(fs, cur + [c], end) {
      CanonIsResolve(fs, left, cur + [c], end);
    }
    AgreesName(fs, left, cur, c, end, text);
  }

  lemma AgreesAtOnce(fs: FileSystem, left: nat, cur: Path, c: string, end: string, text: string)
    requires c != "" && c != "." && c != ".." && Components(text) == [c] + Components(end)
    requires Canon(fs, left, cur, text) == CanonAt(fs, left, cur, c, end)
    requires cur + [c] !in fs || (fs[cur + [c]].Link? && left == 0 && IsDir(fs, cur))
    ensures Agrees(fs, left, cur, text)
  {
    WalkStep(fs, Components, left, cur, c, Components(end));
  }

  lemma AgreesDotDot(fs: FileSystem, left: nat, cur: Path, text: string, end: string)
    requires Agrees(fs, left, Parent(cur), end) && Components(text) == [".."] + Components(end)
    requires Canon(fs, left, cur, text) == Canon(fs, left, Parent(cur), end) && IsDir(fs, cur)
    ensures Agrees(fs, left, cur, text)
  {
    WalkStep(fs, Components, left, cur, "..", Components(end));
  }

  lemma AgreesDot(fs: FileSystem, left: nat, cur: Path, text: string, end: string)
    requires Agrees(fs, left, cur, end) && Components(text) == ["."] + Components(end)
    requires Canon(fs, left, cur, text) == Canon(fs, left, cur, end) && cur in fs && (!IsDir(fs, cur) ==> end != "")
    ensures Agrees(fs, left, cur, text)
  {
    WalkStep(fs, Components, left, cur, ".", Components(end));
    NoComponents(end);
  }

  lemma AgreesLink(fs: FileSystem, left: nat, cur: Path, c: string, end: string, text: string)
    requires c != "" && c != "." && c != ".." && Components(text) == [c] + Components(end) && IsDir(fs, cur) && IsEnd(end)
    requires Canon(fs, left, cur, text) == CanonAt(fs, left, cur, c, end) && cur + [c] in fs && fs[cur + [c]].Link? && left > 0
    requires Agrees(fs, left - 1, Base(cur, fs[cur + [c]].target), fs[cur + [c]].target + end)
    ensures Agrees(fs, left, cur, text)
  {
    WalkStep(fs, Components, left, cur, c, Components(end));
    Splice(fs, Components, fs[cur + [c]].target, end);
  }

  lemma AgreesName(fs: FileSystem, left: nat, cur: Path, c: string, end: string, text: string)
    requires c != "" && c != "." && c != ".." && Components(text) == [c] + Components(end) && IsDir(fs, cur) && IsEnd(end)
    requires Canon(fs, left, cur, text) == CanonAt(fs, left, cur, c, end) && cur + [c] in fs && !fs[cur + [c]].Link?
    requires Fine(fs, cur + [c], end) ==> Agrees(fs, left, cur + [c], end)
    ensures Agrees(fs, left, cur, text)
  {
    WalkStep(fs, Components, left, cur, c, Components(end));
    NoComponents(end);
  }

  // ----- what resolution promises -----

  /** A path whose every step but the last is a directory, that ends in no link, and whose names are plain. */
  ghost predicate Canonical(fs: FileSystem, p: Path) {
    p in fs && !fs[p].Link? && forall k | 0 <= k < |p| :: IsDir(fs, p[..k]) && ValidName(p[k])
  }

  lemma {:induction false} PrefixesAreDirs(fs: FileSystem, p: Path)
    requires WellFormed(fs) && p in fs
    ensures forall k | 0 <= k < |p| :: IsDir(fs, p[..k]) && ValidName(p[k])
    decreases |p|
  {
    if p != [] {
      var q := Parent(p);
      PrefixesAreDirs(fs, q);
      forall k | 0 <= k < |p| ensures IsDir(fs, p[..k]) && ValidName(p[k]) {
        if k < |q| {
          assert p[..k] == q[..k] && p[k] == q[k];
        }
      }
    }
  }

  lemma {:induction false} WalkReaches(fs: FileSystem, parse: string -> seq<string>, left: nat, cur: Path, cs: seq<string>)
    requires WellFormed(fs) && cur in fs && !fs[cur].Link?
    ensures var r := Walk(fs, parse, left, cur, cs);
            r.Ok? ==> r.path in fs && !fs[r.path].Link? && |r.links| <= left && forall l | l in r.links :: l in fs && fs[l].Link?
    decreases left, |cs|
  {
    if cs != [] && IsDir(fs, cur) {
      var c, rest := cs[0], cs[1..];
      if c == "." {
        WalkReaches(fs, parse, left, cur, rest);
      } else if c == ".." {
        WalkReaches(fs, parse, left, Parent(cur), rest);
      } else if cur + [c] in fs && !fs[cur + [c]].Link? {
        WalkReaches(fs, parse, left, cur + [c], rest);
      } else if cur + [c] in fs && left > 0 {
        var target := fs[cur + [c]].target;
        WalkReaches(fs, parse, left - 1, Base(cur, target), parse(target) + rest);
      }
    }
  }

  /** Where resolution succeeds it ends at a canonical path, and everything it followed is a link. */
  lemma ResolveReaches(fs: FileSystem, left: nat, cur: Path, text: string)
    requires WellFormed(fs) && IsDir(fs, cur)
    ensures var r := Resolve(fs, left, cur, text);
            r.Ok? ==> Canonical(fs, r.path) && |r.links| <= left && forall l | l in r.links :: l in fs && fs[l].Link?
  {
    WalkReaches(fs, Components, left, cur, Components(text));
    if Resolve(fs, left, cur, text).Ok? {
      PrefixesAreDirs(fs, Resolve(fs, left, cur, text).path);
    }
  }

  /** The limit on links only ever turns a success into a failure. */
  lemma {:induction false} MoreLinksAllowed(fs: FileSystem, parse: string -> seq<string>, left: nat, more: nat, cur: Path, cs: seq<string>)
    requires left <= more && Walk(fs, parse, left, cur, cs) != Err(TooManyLinks)
    ensures Walk(fs, parse, more, cur, cs) == Walk(fs, parse, left, cur, cs)
    decreases left, |cs|
  {
    if cs != [] && IsDir(fs, cur) {
      var c, rest := cs[0], cs[1..];
      if c == "." {
        MoreLinksAllowed(fs, parse, left, more, cur, rest);
      } else if c == ".." {
        MoreLinksAllowed(fs, parse, left, more, Parent(cur), rest);
      } else if cur + [c] in fs && !fs[cur + [c]].Link? {
        MoreLinksAllowed(fs, parse, left, more, cur + [c], rest);
      } else if cur + [c] in fs && left > 0 {
        var target := fs[cur + [c]].target;
        MoreLinksAllowed(fs, parse, left - 1, more - 1, Base(cur, target), parse(target) + rest);
      }
    }
  }

  // ----- the text of a path -----

  /** Names that can stand between slashes. */
  ghost predicate Plain(p: Path) {
    forall k | 0 <= k < |p| :: p[k] != "" && '/' !in p[k]
  }

  lemma InnerPath(p: Path, n: nat)
    requires 0 < n == |p| - 1
    ensures p[..n] != [] && p[..n][0] == p[0] && p[..n][1..] == p[1..][..n - 1] && p[1..][n - 1] == p[n]
  {
  }

  lemma BothWays(a: string, b: string, c: string)
    ensures a + b + "/" + c == a + (b + "/" + c)
  {
  }

  lemma {:induction false} JoinedFront(p: Path)
    requires p != []
    ensures Joined(p) == "/" + p[0] + Joined(p[1..])
    decreases |p|
  {
    var n := |p| - 1;
    if n > 0 {
      JoinedFront(p[..n]);
      InnerPath(p, n);
      BothWays("/" + p[0], Joined(p[1..][..n - 1]), p[n]);
    } else {
      assert p[..n] == [] && p[1..] == [];
      assert "" + "/" + p[0] == "/" + p[0] + "";
    }
  }

  lemma {:induction false} NameWhole(name: string, e: string)
    requires '/' !in name && IsEnd(e)
    ensures NameLength(name + e) == |name|
    decreases |name|
  {
    if name == "" {
      assert name + e == e;
    } else {
      assert (name + e)[1..] == name[1..] + e;
      NameWhole(name[1..], e);
    }
  }

  lemma ComponentsFirst(name: string, rest: string)
    requires name != "" && '/' !in name && IsEnd(rest)
    ensures Components("/" + name + rest) == [name] + Components(rest)
  {
    var s := name + rest;
    assert "/" + name + rest == "/" + s && ("/" + s)[1..] == s && s[0] == name[0];
    assert name[0] in name;
    SkipOne(s);
    NameWhole(name, rest);
    ComponentsName("/" + s, s, |name|);
    assert s[..|name|] == name && s[|name|..] == rest;
  }

  lemma SkipOne(s: string)
    requires s != "" && s[0] != '/'
    ensures SkipSlashes("/" + s) == s
  {
    assert ("/" + s)[1..] == s;
  }

  /** The text of a path names exactly its components. */
  lemma {:induction false} ComponentsJoined(p: Path)
    requires Plain(p)
    ensures Components(Joined(p)) == p && IsEnd(Joined(p))
    decreases |p|
  {
    if p != [] {
      JoinedFront(p);
      ComponentsJoined(p[1..]);
      ComponentsFirst(p[0], Joined(p[1..]));
      assert [p[0]] + p[1..] == p;
    }
  }

  lemma {:induction false} WalkFixed(fs: FileSystem, parse: string -> seq<string>, left: nat, p: Path, k: nat)
    requires Canonical(fs, p) && k <= |p|
    ensures Walk(fs, parse, left, p[..k], p[k..]) == Ok(p, [])
    decreases |p| - k
  {
    if k == |p| {
      assert p[..k] == p;
    } else {
      WalkFixed(fs, parse, left, p, k + 1);
      assert p[..k] + [p[k]] == p[..k + 1] && p[k..][1..] == p[k + 1..] && p[k..][0] == p[k];
      if k + 1 < |p| {
        assert IsDir(fs, p[..k + 1]);
      } else {
        assert p[..k + 1] == p;
      }
    }
  }

  /** A canonical path resolves to itself, and no link is followed. */
  lemma CanonicalIsFixed(fs: FileSystem, left: nat, p: Path)
    requires WellFormed(fs) && Canonical(fs, p)
    ensures Resolve(fs, left, [], Text(p)) == Ok(p, [])
  {
    if p == [] {
      assert SkipSlashes("/") == "";
      ComponentsSlash("/");
      WalkStep(fs, Components, left, [], ".", []);
      assert ["."] + [] == ["."];
    } else {
      ComponentsJoined(p);
      WalkFixed(fs, Components, left, p, 0);
      assert p[..0] == [] && p[0..] == p;
    }
  }

  // ----- what a link, "." and ".." mean -----

  lemma Grouped(a: string, b: string, c: string)
    ensures a + b + c == a + (b + c)
  {
  }

  lemma FirstAndRest(p: Path, cs: seq<string>)
    requires p != []
    ensures [p[0]] + (p[1..] + cs) == p + cs
  {
  }

  lemma {:induction false} ComponentsBehind(p: Path, e: string)
    requires Plain(p) && IsEnd(e)
    ensures Components(Joined(p) + e) == p + Components(e) && IsEnd(Joined(p) + e)
    decreases |p|
  {
    if p == [] {
      assert "" + e == e && p + Components(e) == Components(e);
    } else {
      JoinedFront(p);
      ComponentsBehind(p[1..], e);
      Grouped("/" + p[0], Joined(p[1..]), e);
      ComponentsFirst(p[0], Joined(p[1..]) + e);
      FirstAndRest(p, Components(e));
    }
  }

  /** Resolution goes down a directory's own path without following anything. */
  lemma {:induction false} WalkDown(fs: FileSystem, parse: string -> seq<string>, left: nat, d: Path, k: nat, cs: seq<string>)
    requires WellFormed(fs) && IsDir(fs, d) && k <= |d|
    ensures Walk(fs, parse, left, d[..k], d[k..] + cs) == Walk(fs, parse, left, d, cs)
    decreases |d| - k
  {
    if k == |d| {
      assert d[..k] == d && d[k..] + cs == cs;
    } else {
      PrefixesAreDirs(fs, d);
      WalkDown(fs, parse, left, d, k + 1, cs);
      assert d[k..] + cs == [d[k]] + (d[k + 1..] + cs) && d[..k] + [d[k]] == d[..k + 1];
      WalkStep(fs, parse, left, d[..k], d[k], d[k + 1..] + cs);
      assert k + 1 == |d| ==> d[..k + 1] == d;
    }
  }

  lemma ResolveBehind(fs: FileSystem, left: nat, d: Path, e: string)
    requires WellFormed(fs) && IsDir(fs, d) && IsEnd(e)
    ensures Resolve(fs, left, [], Joined(d) + e) == Walk(fs, Components, left, d, Components(e))
  {
    PrefixesAreDirs(fs, d);
    ComponentsBehind(d, e);
    WalkDown(fs, Components, left, d, 0, Components(e));
    assert d[..0] == [] && d[0..] == d;
  }

  lemma LinkSpliced(fs: FileSystem, n: nat, d: Path, c: string, e: string)
    requires WellFormed(fs) && IsEnd(e) && d + [c] in fs && fs[d + [c]].Link?
    ensures var t := fs[d + [c]].target;
            && Walk(fs, Components, 0, d, [c] + Components(e)) == Err(TooManyLinks)
            && Walk(fs, Components, n + 1, d, [c] + Components(e)) ==
               After([d + [c]], Resolve(fs, n, if t != "" && t[0] == '/' then [] else d, t + e))
  {
    BelowDir(fs, d, c);
    PrefixesAreDirs(fs, d + [c]);
    assert ValidName((d + [c])[|d|]);
    WalkStep(fs, Components, 0, d, c, Components(e));
    WalkStep(fs, Components, n + 1, d, c, Components(e));
    Splice(fs, Components, fs[d + [c]].target, e);
  }

  /** A link followed by any text stands for its target followed by that text: from the root when the
      target starts with a slash, otherwise from the directory that holds the link. */
  lemma LinkFollowed(fs: FileSystem, n: nat, p: Path, e: string)
    requires WellFormed(fs) && p in fs && fs[p].Link? && (e == "" || e[0] == '/')
    ensures var t := fs[p].target;
            && Resolve(fs, 0, [], Text(p) + e) == Err(TooManyLinks)
            && (t != "" && t[0] == '/' ==> Resolve(fs, n + 1, [], Text(p) + e) == After([p], Resolve(fs, n, [], t + e)))
            && (t == "" || t[0] != '/' ==> Resolve(fs, n + 1, [], Text(p) + e) == After([p], Resolve(fs, n, p[..|p| - 1], t + e)))
  {
    var d, c := p[..|p| - 1], p[|p| - 1];
    assert p == d + [c];
    BelowDir(fs, d, c);
    PrefixesAreDirs(fs, p);
    assert ValidName(p[|p| - 1]);
    assert c[0] in c;
    assert Text(p) + e == Joined(d) + ("/" + c + e);
    ResolveBehind(fs, 0, d, "/" + c + e);
    ResolveBehind(fs, n + 1, d, "/" + c + e);
    ComponentsFirst(c, e);
    LinkSpliced(fs, n, d, c, e);
  }

  /** The whole text of a link. */
  lemma LinkResolves(fs: FileSystem, n: nat, p: Path)
    requires WellFormed(fs) && p in fs && fs[p].Link?
    ensures var t := fs[p].target;
            && (t != "" && t[0] == '/' ==> Resolve(fs, n + 1, [], Text(p)) == After([p], Resolve(fs, n, [], t)))
            && (t == "" || t[0] != '/' ==> Resolve(fs, n + 1, [], Text(p)) == After([p], Resolve(fs, n, p[..|p| - 1], t)))
  {
    LinkFollowed(fs, n, p, "");
    assert Text(p) + "" == Text(p) && fs[p].target + "" == fs[p].target;
  }

  /** Behind a directory, "/" and "/." stay there and "/.." goes to the one that holds it, or stays at the root. */
  lemma DotsResolve(fs: FileSystem, left: nat, d: Path)
    requires WellFormed(fs) && IsDir(fs, d)
    ensures Resolve(fs, left, [], Joined(d) + "/") == Resolve(fs, left, [], Joined(d) + "/.") == Ok(d, [])
    ensures Resolve(fs, left, [], Joined(d) + "/..") == Ok(if d == [] then [] else d[..|d| - 1], [])
  {
    ResolveBehind(fs, left, d, "/");
    ResolveBehind(fs, left, d, "/.");
    ResolveBehind(fs, left, d, "/..");
    assert "/." == "/" + "." + "" && "/.." == "/" + ".." + "" && SkipSlashes("/") == "";
    ComponentsSlash("/");
    ComponentsFirst(".", "");
    ComponentsFirst("..", "");
    assert Components("") == [];
    WalkStep(fs, Components, left, d, ".", []);
    WalkStep(fs, Components, left, d, "..", []);
    assert ["."] + [] == ["."];
  }

  // ----- texts that fit -----

  /** No path of the file system is longer than m and no link's target longer than t. */
  ghost predicate Short(fs: FileSystem, m: nat, t: nat) {
    && (forall p | p in fs :: |Joined(p)| <= m)
    && forall p | p in fs && fs[p].Link? :: |fs[p].target| <= t
  }

  /** What n links can add to a text. */
  ghost function Room(n: nat, t: nat): nat {
    if n == 0 then 0 else Room(n - 1, t) + t
  }

  lemma {:induction false} RoomIs(n: nat, t: nat)
    ensures Room(n, t) == n * t
    decreases n
  {
    if n > 0 {
      RoomIs(n - 1, t);
      assert n * t == (n - 1) * t + t;
    }
  }

  lemma {:induction false} NotTooLong(fs: FileSystem, left: nat, cur: Path, text: string, m: nat, t: nat)
    requires Short(fs, m, t) && |Joined(cur)| <= m && m + |text| + Room(left, t) <= 4096
    ensures Canon(fs, left, cur, text) != Err(TooLong)
    decreases left, |text|, 2
  {
    var s := SkipSlashes(text);
    if s != "" {
      var n := NameLength(s);
      CanonStep(fs, left, cur, text, s, n);
      NameNotTooLong(fs, left, cur, s[..n], s[n..], m, t);
    }
  }

  lemma {:induction false} NameNotTooLong(fs: FileSystem, left: nat, cur: Path, c: string, end: string, m: nat, t: nat)
    requires Short(fs, m, t) && |Joined(cur)| <= m && c != "" && m + |c| + |end| + Room(left, t) <= 4096
    ensures CanonAt(fs, left, cur, c, end) != Err(TooLong)
    decreases left, |c| + |end|, 1
  {
    if c == "." {
      NotTooLong(fs, left, cur, end, m, t);
    } else if c == ".." {
      NotTooLong(fs, left, Parent(cur), end, m, t);
    } else if cur + [c] in fs {
      EntryNotTooLong(fs, left, cur, c, end, m, t);
    }
  }

  lemma {:induction false} EntryNotTooLong(fs: FileSystem, left: nat, cur: Path, c: string, end: string, m: nat, t: nat)
    requires Short(fs, m, t) && |Joined(cur)| <= m && c != "" && m + |c| + |end| + Room(left, t) <= 4096
    requires c != "." && c != ".." && cur + [c] in fs
    ensures CanonAt(fs, left, cur, c, end) != Err(TooLong)
    decreases left, |c| + |end|, 0
  {
    match fs[cur + [c]]
    case Link(target) =>
      if left > 0 {
        NotTooLong(fs, left - 1, Base(cur, target), target + end, m, t);
      }
    case _ => NotTooLong(fs, left, cur + [c], end, m, t);
  }

  /** When the paths, the targets and the text are short enough for the number of links allowed, no buffer is outgrown
      and what is computed is resolution. */
  lemma ShortIsResolve(fs: FileSystem, left: nat, cur: Path, text: string, m: nat, t: nat)
    requires WellFormed(fs) && IsDir(fs, cur) && Short(fs, m, t) && m + |text| + left * t <= 4096
    ensures Canon(fs, left, cur, text) == Resolve(fs, left, cur, text)
  {
    RoomIs(left, t);
    CanonIsResolve(fs, left, cur, text);
    NotTooLong(fs, left, cur, text, m, t);
  }
}

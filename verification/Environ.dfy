/** Printing the environment in quotes and reading it back (features/runtime/src/environ/environ.c:37-158). */
module Environ {
  import opened Basics

  /** An entry of the environment, split at its first '='. */
  datatype Entry = Entry(name: string, value: string)

  datatype Error = NoEquals | NoOpeningQuote | NoClosingQuote

  /** The assignments made, in order, or the reason for stopping. */
  datatype Result = Assigned(entries: seq<Entry>) | Failed(error: Error)

  // ----- the writer -----

  predicate Special(c: char) {
    c == '$' || c == '`' || c == '"' || c == '\\'
  }

  function Escape(s: string): string {
    if s == "" then ""
    else if Special(s[0]) then "\\" + [s[0]] + Escape(s[1..])
    else [s[0]] + Escape(s[1..])
  }

  function Line(prefix: string, e: Entry): string {
    prefix + e.name + "=\"" + Escape(e.value) + "\"" + "\n"
  }

  function Lines(line: Entry -> string, entries: seq<Entry>): string {
    if entries == [] then "" else Lines(line, entries[..|entries| - 1]) + line(entries[|entries| - 1])
  }

  function Shown(prefix: string, entries: seq<Entry>): string {
    Lines(e => Line(prefix, e), entries)
  }

  /** strpbrk: the first special character at or after an index, or the end. */
  method FindSpecial(s: string, from: nat) returns (i: nat)
    requires from <= |s|
    ensures from <= i <= |s| && (i < |s| ==> Special(s[i])) && forall k | from <= k < i :: !Special(s[k])
  {
    i := from;
    while i < |s| && !Special(s[i])
      invariant from <= i <= |s| && forall k | from <= k < i :: !Special(s[k])
    {
      i := i + 1;
    }
  }

  lemma {:induction false} EscapeAppend(a: string, b: string)
    ensures Escape(a + b) == Escape(a) + Escape(b)
    decreases |a|
  {
    if a == "" {
      assert a + b == b && "" + Escape(b) == Escape(b);
    } else {
      assert (a + b)[1..] == a[1..] + b;
      EscapeAppend(a[1..], b);
    }
  }

  lemma {:induction false} EscapePlain(s: string)
    requires forall c | c in s :: !Special(c)
    ensures Escape(s) == s
    decreases |s|
  {
    if s != "" {
      assert s[0] in s;
      EscapePlain(s[1..]);
      assert [s[0]] + s[1..] == s;
    }
  }

  lemma EscapeStep(s: string, i: nat, j: nat)
    requires i <= j <= |s| && (forall k | i <= k < j :: !Special(s[k])) && (j < |s| ==> Special(s[j]))
    ensures Escape(s[..j]) == Escape(s[..i]) + s[i..j]
    ensures j < |s| ==> Escape(s[..j + 1]) == Escape(s[..i]) + s[i..j] + "\\" + [s[j]]
  {
    EscapeAppend(s[..i], s[i..j]);
    assert s[..j] == s[..i] + s[i..j];
    EscapePlain(s[i..j]);
    if j < |s| {
      EscapeAppend(s[..j], [s[j]]);
      assert s[..j + 1] == s[..j] + [s[j]] && Escape([s[j]]) == "\\" + [s[j]] + Escape([]);
    }
  }

  /** Each dollar sign, backquote, double quote and backslash stands behind a backslash; every other
      character stands for itself; and nothing else is written. */
  lemma EscapedAt(s: string, i: nat)
    requires i < |s|
    ensures var at := |Escape(s[..i])|;
            var written := if s[i] in {'$', '`', '"', '\\'} then ['\\', s[i]] else [s[i]];
            && |Escape(s[..i + 1])| == at + |written| <= |Escape(s)|
            && Escape(s)[at..at + |written|] == written
  {
    var a, c, b := s[..i], [s[i]], s[i + 1..];
    assert s[..i + 1] == a + c && s == a + (c + b);
    assert Escape([]) == [] && c[1..] == [];
    EscapeAppend(a, c);
    EscapeAppend(c, b);
    EscapeAppend(a, c + b);
  }

  /** The quoted value (lines 58-69). */
  method WriteValue(s: string) returns (out: string)
    ensures out == Escape(s)
  {
    out := "";
    var c := 0;
    while c < |s|
      invariant c <= |s| && out == Escape(s[..c])
    {
      var d := FindSpecial(s, c);
      EscapeStep(s, c, d);
      if d == |s| {
        out := out + s[c..];
        assert s[..d] == s && s[c..] == s[c..d];
        return;
      }
      out := out + s[c..d] + "\\" + [s[d]];
      c := d + 1;
    }
    assert s[..c] == s;
  }

  /** show_environ with quotes (lines 37-77). */
  method ShowEnviron(prefix: string, entries: seq<Entry>) returns (out: string)
    ensures out == Shown(prefix, entries)
  {
    out := "";
    var i := 0;
    while i < |entries|
      invariant i <= |entries| && out == Shown(prefix, entries[..i])
    {
      assert entries[..i + 1][..i] == entries[..i];
      var value := WriteValue(entries[i].value);
      var line := prefix + entries[i].name + "=\"" + value + "\"" + "\n";
      out := out + line;
      i := i + 1;
    }
    assert entries[..i] == entries;
  }

  // ----- the reader -----

  predicate IsSpace(c: char) {
    c == ' ' || c == '\t' || c == '\n' || c == '\r' || c as int == 11 || c as int == 12
  }

  function SkipSpaces(s: string): (r: string)
    ensures |r| <= |s|
  {
    if s != "" && IsSpace(s[0]) then SkipSpaces(s[1..]) else s
  }

  /** The length of the name before the next '=', if there is one. */
  function NameLength(s: string): (r: Option<nat>)
    ensures r.Some? ==> r.value < |s|
  {
    if s == "" then None
    else if s[0] == '=' then Some(0)
    else match NameLength(s[1..])
         case None => None
         case Some(n) => Some(n + 1)
  }

  /** The value up to the closing quote and the text behind it (lines 129-145). */
  function ReadValue(s: string, quoted: bool): (r: Option<(string, string)>)
    ensures r.Some? ==> |r.value.1| < |s|
  {
    if s == "" then None
    else if !quoted && s[0] == '"' then Some(("", s[1..]))
    else if !quoted && s[0] == '\\' then ReadValue(s[1..], true)
    else match ReadValue(s[1..], false)
         case None => None
         case Some((value, rest)) => Some(([s[0]] + value, rest))
  }

  function Before(entries: seq<Entry>, r: Result): Result {
    match r
    case Assigned(more) => Assigned(entries + more)
    case Failed(e) => Failed(e)
  }

  /** One assignment: the entry and the text behind it. */
  function ReadEntry(s: string): (r: (Result, string))
    ensures r.0.Assigned? ==> |r.1| < |s| && |r.0.entries| == 1
  {
    match NameLength(s)
    case None => (Failed(NoEquals), "")
    case Some(n) =>
      var t := s[n + 1..];
      if t == "" || t[0] != '"' then (Failed(NoOpeningQuote), "")
      else match ReadValue(t[1..], false)
           case None => (Failed(NoClosingQuote), "")
           case Some((value, rest)) => (Assigned([Entry(s[..n], value)]), rest)
  }

  /** set_environ (lines 79-158). */
  function Parse(text: string): Result
    decreases |text|
  {
    var s := SkipSpaces(text);
    if s == "" then Assigned([])
    else
      var (r, rest) := ReadEntry(s);
      if r.Failed? then r else Before(r.entries, Parse(rest))
  }

  lemma BeforeBoth(a: seq<Entry>, b: seq<Entry>, r: Result)
    ensures Before(a, Before(b, r)) == Before(a + b, r) && Before([], r) == r
  {
    if r.Assigned? {
      assert a + (b + r.entries) == a + b + r.entries && [] + r.entries == r.entries;
    }
  }

  /** The loop over the value, with its is_quote flag (lines 129-145). */
  method ParseValue(s: string, from: nat) returns (r: Option<(string, nat)>)
    requires from <= |s|
    ensures match r
            case None => ReadValue(s[from..], false) == None
            case Some((value, next)) => from < next <= |s| && ReadValue(s[from..], false) == Some((value, s[next..]))
  {
    var a, quoted, value := from, false, "";
    PrefixedBoth("", "", ReadValue(s[from..], false));
    while a < |s|
      invariant from <= a <= |s|
      invariant ReadValue(s[from..], false) == Prefixed(value, ReadValue(s[a..], quoted))
    {
      assert s[a..][1..] == s[a + 1..];
      var c := s[a];
      if !quoted {
        if c == '"' {
          assert value + "" == value;
          return Some((value, a + 1));
        }
        if c == '\\' {
          quoted := true;
          a := a + 1;
          continue;
        }
      } else {
        quoted := false;
      }
      PrefixedBoth(value, [c], ReadValue(s[a + 1..], false));
      value := value + [c];
      a := a + 1;
    }
    return None;
  }

  function Prefixed(value: string, r: Option<(string, string)>): Option<(string, string)> {
    match r
    case None => None
    case Some((more, rest)) => Some((value + more, rest))
  }

  lemma PrefixedBoth(a: string, b: string, r: Option<(string, string)>)
    ensures Prefixed(a, Prefixed(b, r)) == Prefixed(a + b, r) && Prefixed("", r) == r
  {
    if r.Some? {
      assert a + (b + r.value.0) == a + b + r.value.0 && "" + r.value.0 == r.value.0;
    }
  }

  method FindEquals(s: string, from: nat) returns (r: Option<nat>)
    requires from <= |s|
    ensures NameLength(s[from..]) == match r case None => None case Some(i) => Some(if i >= from then i - from else 0)
    ensures r.Some? ==> from <= r.value < |s|
  {
    var i := from;
    while i < |s|
      invariant from <= i <= |s|
      invariant NameLength(s[from..]) == match NameLength(s[i..]) case None => None case Some(n) => Some(n + i - from)
    {
      if s[i] == '=' {
        return Some(i);
      }
      assert s[i..][1..] == s[i + 1..];
      i := i + 1;
    }
    return None;
  }

  method SkipAll(s: string, from: nat) returns (i: nat)
    requires from <= |s|
    ensures from <= i <= |s| && SkipSpaces(s[from..]) == s[i..]
  {
    i := from;
    while i < |s| && IsSpace(s[i])
      invariant from <= i <= |s| && SkipSpaces(s[from..]) == SkipSpaces(s[i..])
    {
      assert s[i..][1..] == s[i + 1..];
      i := i + 1;
    }
  }

  /** One assignment (lines 110-152). */
  method ParseEntry(s: string, from: nat) returns (r: Result, next: nat)
    requires from <= |s|
    ensures r == ReadEntry(s[from..]).0 && (r.Assigned? ==> from < next <= |s| && s[next..] == ReadEntry(s[from..]).1)
  {
    next := from;
    var eq := FindEquals(s, from);
    if eq.None? {
      return Failed(NoEquals), next;
    }
    var a := eq.value + 1;
    assert s[from..][eq.value - from + 1..] == s[a..] && s[from..][..eq.value - from] == s[from..eq.value];
    if a == |s| || s[a] != '"' {
      return Failed(NoOpeningQuote), next;
    }
    assert s[a..][1..] == s[a + 1..];
    var value := ParseValue(s, a + 1);
    match value {
      case None => return Failed(NoClosingQuote), next;
      case Some((v, end)) => return Assigned([Entry(s[from..eq.value], v)]), end;
    }
  }

  /** set_environ (lines 79-158). */
  method SetEnviron(text: string) returns (r: Result)
    ensures r == Parse(text)
  {
    var a, entries := 0, [];
    BeforeBoth([], [], Parse(text));
    assert text[0..] == text;
    while a < |text|
      invariant a <= |text| && Parse(text) == Before(entries, Parse(text[a..]))
    {
      var s := SkipAll(text, a);
      if s == |text| {
        assert entries + [] == entries;
        return Assigned(entries);
      }
      var e, next := ParseEntry(text, s);
      if e.Failed? {
        return e;
      }
      BeforeBoth(entries, e.entries, Parse(text[next..]));
      entries, a := entries + e.entries, next;
    }
    assert entries + [] == entries;
    return Assigned(entries);
  }

  // ----- round trip -----

  lemma {:induction false} ValueRoundTrip(v: string, rest: string)
    ensures ReadValue(Escape(v) + "\"" + rest, false) == Some((v, rest))
    decreases |v|
  {
    var s := Escape(v) + "\"" + rest;
    if v == "" {
      assert s == "\"" + rest && s[1..] == rest;
    } else {
      ValueRoundTrip(v[1..], rest);
      var t := Escape(v[1..]) + "\"" + rest;
      if Special(v[0]) {
        assert s == "\\" + [v[0]] + t && s[1..] == [v[0]] + t && s[1..][1..] == t;
      } else {
        assert s == [v[0]] + t && s[1..] == t;
      }
      assert [v[0]] + v[1..] == v;
    }
  }

  lemma {:induction false} NameFound(name: string, rest: string)
    requires '=' !in name
    ensures NameLength(name + "=" + rest) == Some(|name|)
    decreases |name|
  {
    var s := name + "=" + rest;
    if name == "" {
      assert s[0] == '=';
    } else {
      assert s[1..] == name[1..] + "=" + rest;
      NameFound(name[1..], rest);
    }
  }

  lemma {:induction false} SpacesSkipped(name: string, rest: string)
    requires rest != "" && !IsSpace(rest[0])
    ensures SkipSpaces(name + rest) == SkipSpaces(name) + rest
    decreases |name|
  {
    if name == "" {
      assert name + rest == rest;
    } else if IsSpace(name[0]) {
      assert (name + rest)[1..] == name[1..] + rest;
      SpacesSkipped(name[1..], rest);
    }
  }

  lemma {:induction false} SkippedHasNo(name: string)
    requires '=' !in name
    ensures '=' !in SkipSpaces(name)
    decreases |name|
  {
    if name != "" && IsSpace(name[0]) {
      assert forall c | c in name[1..] :: c in name;
      SkippedHasNo(name[1..]);
    }
  }

  /** A line reads back as its entry. */
  lemma EntryRoundTrip(name: string, value: string, rest: string)
    requires '=' !in name
    ensures ReadEntry(name + "=\"" + Escape(value) + "\"" + rest) == (Assigned([Entry(name, value)]), rest)
  {
    var tail := "\"" + (Escape(value) + "\"" + rest);
    var s := name + "=" + tail;
    assert name + "=\"" + Escape(value) + "\"" + rest == s;
    NameFound(name, tail);
    assert s[..|name|] == name && s[|name| + 1..] == tail && tail[1..] == Escape(value) + "\"" + rest;
    ValueRoundTrip(value, rest);
  }

  /** What reading makes of an entry that was printed: the leading blanks of its name are lost. */
  function Stripped(prefix: string, entries: seq<Entry>): seq<Entry> {
    if entries == [] then [] else [Entry(SkipSpaces(prefix + entries[0].name), entries[0].value)] + Stripped(prefix, entries[1..])
  }

  lemma Regroup(a: string, b: string, c: string)
    ensures a + b + c == a + (b + c) && "" + a == a + ""
  {
  }

  lemma {:induction false} LinesFront(line: Entry -> string, entries: seq<Entry>)
    requires entries != []
    ensures Lines(line, entries) == line(entries[0]) + Lines(line, entries[1..])
    decreases |entries|
  {
    var n := |entries| - 1;
    if n > 0 {
      LinesFront(line, entries[..n]);
      assert entries[..n][1..] == entries[1..][..n - 1];
      Regroup(line(entries[0]), Lines(line, entries[1..][..n - 1]), line(entries[n]));
    } else {
      assert entries[..n] == [] && entries[1..] == [];
      Regroup(line(entries[0]), "", "");
    }
  }

  lemma LineRead(prefix: string, e: Entry, rest: string)
    requires '=' !in prefix + e.name
    ensures Parse(Line(prefix, e) + rest) == Before([Entry(SkipSpaces(prefix + e.name), e.value)], Parse(rest))
  {
    var name := prefix + e.name;
    var tail := "=\"" + Escape(e.value) + "\"" + ("\n" + rest);
    assert Line(prefix, e) + rest == name + tail;
    SpacesSkipped(name, tail);
    SkippedHasNo(name);
    var stripped := SkipSpaces(name);
    assert stripped + tail == stripped + "=\"" + Escape(e.value) + "\"" + ("\n" + rest);
    EntryRoundTrip(stripped, e.value, "\n" + rest);
    assert ("\n" + rest)[1..] == rest;
    assert Parse("\n" + rest) == Parse(rest);
  }

  /** For every environment and every value, reading what was printed gives the entries back with the leading blanks of
      their names removed. */
  lemma {:induction false} ShownRead(prefix: string, entries: seq<Entry>)
    requires forall e | e in entries :: '=' !in prefix + e.name
    ensures Parse(Shown(prefix, entries)) == Assigned(Stripped(prefix, entries))
    decreases |entries|
  {
    if entries != [] {
      LinesFront(e => Line(prefix, e), entries);
      ShownRead(prefix, entries[1..]);
      LineRead(prefix, entries[0], Shown(prefix, entries[1..]));
    }
  }

  function Prefixes(prefix: string, entries: seq<Entry>): seq<Entry> {
    seq(|entries|, i requires 0 <= i < |entries| => Entry(prefix + entries[i].name, entries[i].value))
  }

  /** A tab, a line feed, a vertical tab, a form feed, a carriage return or a space in front. */
  ghost predicate StartsBlank(s: string) {
    s != "" && s[0] as int in {9, 10, 11, 12, 13, 32}
  }

  lemma {:induction false} StrippedIs(prefix: string, entries: seq<Entry>)
    ensures |Stripped(prefix, entries)| == |entries|
    ensures forall i | 0 <= i < |entries| :: Stripped(prefix, entries)[i] == Entry(SkipSpaces(prefix + entries[i].name), entries[i].value)
    decreases |entries|
  {
    if entries != [] {
      StrippedIs(prefix, entries[1..]);
    }
  }

  lemma {:induction false} SkipsWhenBlank(s: string)
    ensures SkipSpaces(s) == s <==> !StartsBlank(s)
    decreases |s|
  {
  }

  /** Everything comes back unchanged, with the prefix, if and only if no name that is printed starts with a blank. */
  lemma RoundTrip(prefix: string, entries: seq<Entry>)
    requires forall e | e in entries :: '=' !in prefix + e.name
    ensures Parse(Shown(prefix, entries)) == Assigned(Prefixes(prefix, entries))
       <==> forall e | e in entries :: !StartsBlank(prefix + e.name)
  {
    ShownRead(prefix, entries);
    StrippedIs(prefix, entries);
    var a, b := Stripped(prefix, entries), Prefixes(prefix, entries);
    forall e | e in entries ensures SkipSpaces(prefix + e.name) == prefix + e.name <==> !StartsBlank(prefix + e.name) {
      SkipsWhenBlank(prefix + e.name);
    }
    if forall e | e in entries :: !StartsBlank(prefix + e.name) {
      assert a == b;
    } else {
      var e :| e in entries && StartsBlank(prefix + e.name);
      var i :| 0 <= i < |entries| && entries[i] == e;
      assert a[i] != b[i];
    }
  }

  // ----- the environment that results -----

  /** setenv one after another; an empty name is refused and the refusal is ignored. */
  function Environment(entries: seq<Entry>): map<string, string> {
    if entries == [] then map[]
    else
      var e, rest := entries[|entries| - 1], Environment(entries[..|entries| - 1]);
      if e.name == "" then rest else rest[e.name := e.value]
  }

  ghost predicate DistinctNames(entries: seq<Entry>) {
    forall i, j | 0 <= i < j < |entries| :: entries[i].name != entries[j].name
  }

  ghost predicate Names(entries: seq<Entry>, n: string) {
    exists e :: e in entries && e.name == n
  }

  lemma NamesAppend(front: seq<Entry>, last: Entry, n: string)
    ensures Names(front + [last], n) <==> Names(front, n) || last.name == n
  {
    if last.name == n {
      assert last in front + [last];
    }
    if Names(front, n) {
      var e :| e in front && e.name == n;
      assert e in front + [last];
    }
  }

  lemma DistinctFront(front: seq<Entry>, last: Entry)
    requires DistinctNames(front + [last])
    ensures DistinctNames(front) && !Names(front, last.name)
  {
    var all := front + [last];
    forall i, j | 0 <= i < j < |front| ensures front[i].name != front[j].name {
      assert all[i] == front[i] && all[j] == front[j];
    }
    forall i | 0 <= i < |front| ensures front[i].name != last.name {
      assert all[i] == front[i] && all[|front|] == last;
    }
  }

  ghost predicate Set(env: map<string, string>, e: Entry) {
    e.name != "" ==> e.name in env && env[e.name] == e.value
  }

  /** With distinct names, what is set is what was listed, but for an empty name. */
  lemma {:induction false} EnvironmentIs(entries: seq<Entry>)
    requires DistinctNames(entries)
    ensures forall n :: n in Environment(entries) <==> n != "" && Names(entries, n)
    ensures forall e | e in entries :: Set(Environment(entries), e)
    decreases |entries|
  {
    if entries != [] {
      var n := |entries| - 1;
      var front, last := entries[..n], entries[n];
      assert entries == front + [last];
      DistinctFront(front, last);
      EnvironmentIs(front);
      forall m ensures Names(entries, m) <==> Names(front, m) || last.name == m {
        NamesAppend(front, last, m);
      }
      forall e | e in entries ensures Set(Environment(entries), e) {
        if e in front {
          assert Set(Environment(front), e) && Names(front, e.name);
        }
      }
    }
  }
}

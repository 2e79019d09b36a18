/** The loops of read_stream and of initrd-extract, proved against modules Cpio and Streams. */
module Extraction {
  import opened Basics
  import opened Cpio
  import opened CpioFiles
  import opened Streams

  // ----- reading an image -----

  method FindMagic(raw: seq<Byte>) returns (window: Option<nat>)
    ensures window == FindConfig(raw, MAGIC, 0)
  {
    var i := 0;
    while i < 4
      invariant i <= 4 && FindConfig(raw, MAGIC, 0) == FindConfig(raw, MAGIC, i)
    {
      if |raw| >= |MAGIC| + i && raw[|raw| - |MAGIC| - i..|raw| - i] == MAGIC {
        return Some(|raw| - |MAGIC| - i);
      }
      i := i + 1;
    }
    return None;
  }

  lemma ConsumeStep(step: seq<Byte> -> Chunk<Found>, s: seq<Byte>, offset: nat, found: seq<Found>)
    requires Progresses(step) && offset < |s|
    ensures Before(found, Consume(step, Suffix(s, offset))) ==
            match step(s[offset..])
            case Refused(p) => Failed(p)
            case Took(items, size) => Before(found + items, Consume(step, Suffix(s, offset + size)))
  {
    var t := s[offset..];
    assert Suffix(s, offset) == t;
    if step(t).Took? {
      var items, size := step(t).items, step(t).size;
      assert Suffix(t, size) == Suffix(s, offset + size);
      var rest := Consume(step, Suffix(s, offset + size));
      if rest.Done? {
        assert found + (items + rest.items) == found + items + rest.items;
      }
    }
  }

  /** step is the loop's turn under another name. */
  ghost predicate Turns(c: Codec, unpack: Unpack, depth: nat, step: seq<Byte> -> Chunk<Found>)
    requires Eats(unpack)
  {
    forall s {:trigger StreamTurn(c, unpack, depth, s)} :: StreamTurn(c, unpack, depth, s) == step(s)
  }

  /** One turn of the loop of read_stream (lines 57-93). */
  method TakeOne(c: Codec, unpack: Unpack, depth: nat, s: seq<Byte>, ghost step: seq<Byte> -> Chunk<Found>)
    returns (chunk: Chunk<Found>)
    requires Eats(unpack) && s != [] && Turns(c, unpack, depth, step)
    ensures chunk == step(s)
    decreases depth, 0
  {
    assert step(s) == StreamTurn(c, unpack, depth, s);
    var format := DecompressMethod(s);
    if format.Some? {
      var u := unpack(format.value, s);
      if u.Broken? {
        return Refused(BadData);
      }
      if depth == 0 {
        return Refused(TooDeep);
      }
      var inner := ReadStream(c, unpack, depth - 1, false, u.data);
      if inner.Failed? {
        return Refused(inner.problem);
      }
      return Took(inner.items, u.size);
    }
    var archive := ReadCpio(c, s);
    if archive.Err? {
      return Refused(BadArchive(archive.error));
    }
    return Took([Headers(archive.value.0)], archive.value.1);
  }

  /** The loop of read_stream (lines 56-94). */
  method ReadSegments(c: Codec, unpack: Unpack, depth: nat, s: seq<Byte>, ghost step: seq<Byte> -> Chunk<Found>)
    returns (r: Outcome<Found>)
    requires Eats(unpack) && Turns(c, unpack, depth, step) && Progresses(step)
    ensures r == Consume(step, s)
    decreases depth, 1
  {
    var offset, found := 0, [];
    BeforeNothing(Consume(step, s));
    assert Suffix(s, 0) == s;
    while offset < |s|
      invariant Consume(step, s) == Before(found, Consume(step, Suffix(s, offset)))
      decreases |s| - offset
    {
      ConsumeStep(step, s, offset, found);
      var chunk := TakeOne(c, unpack, depth, s[offset..], step);
      if chunk.Refused? {
        return Failed(chunk.problem);
      }
      found := found + chunk.items;
      offset := offset + chunk.size;
    }
    BeforeNothing(Done(found));
    return Done(found);
  }

  lemma BeforeNothing(r: Outcome<Found>)
    ensures Before([], r) == r && (r.Done? ==> Before(r.items, Done([])) == r)
  {
    if r.Done? {
      assert [] + r.items == r.items == r.items + [];
    }
  }

  /** read_stream (lines 21-129); top is stream_level == 1. */
  method ReadStream(c: Codec, unpack: Unpack, depth: nat, top: bool, raw: seq<Byte>) returns (r: Outcome<Found>)
    requires Eats(unpack)
    ensures r == if top then ReadImage(c, unpack, depth, raw) else Consume(Steps(c, unpack, depth), raw)
    decreases depth
  {
    if top {
      var window := FindMagic(raw);
      r := ReadUpTo(c, unpack, depth, raw, window);
    } else {
      r := ReadSegments(c, unpack, depth, raw, Steps(c, unpack, depth));
    }
  }

  /** The bootconfig's part of read_stream (lines 96-128). */
  method ReadUpTo(c: Codec, unpack: Unpack, depth: nat, raw: seq<Byte>, window: Option<nat>) returns (r: Outcome<Found>)
    requires Eats(unpack) && (window.Some? ==> window.value + |MAGIC| <= |raw|)
    ensures r == ReadBefore(Reader(c, unpack, depth), raw, window)
    decreases depth, 2
  {
    if window.None? {
      r := ReadSegments(c, unpack, depth, raw, Steps(c, unpack, depth));
      return;
    }
    var start := ConfigStart(raw, window.value);
    if start.Failed? {
      return Failed(start.problem);
    }
    var size := start.items[0];
    r := ReadSegments(c, unpack, depth, raw[..size], Steps(c, unpack, depth));
    if r.Done? {
      r := Done(r.items + [BootConfig(raw[size..window.value - 8])]);
    }
  }

  // ----- writing an archive -----

  ghost predicate Writable(hs: seq<Header>) {
    forall h | h in hs :: 0 in h.name && |h.body| == h.bodyLen
  }

  /** Records appended one after another, each where the one before it ends. */
  ghost function Appended<T>(encode: (T, nat) -> seq<Byte>, records: seq<T>, offset: nat): seq<Byte>
    decreases |records|
  {
    if records == [] then []
    else
      var n := |records| - 1;
      var s := Appended(encode, records[..n], offset);
      s + encode(records[n], offset + |s|)
  }

  lemma AppendedSnoc<T>(encode: (T, nat) -> seq<Byte>, records: seq<T>, r: T, start: seq<Byte>)
    ensures var s := Appended(encode, records, 0);
            && Appended(encode, records + [r], 0) == s + encode(r, |s|)
            && start + Appended(encode, records + [r], 0) == start + s + encode(r, |s|)
  {
    assert (records + [r])[..|records|] == records;
    var s := Appended(encode, records, 0);
    assert start + (s + encode(r, |s|)) == start + s + encode(r, |s|);
  }

  ghost function Encoder(c: Codec): (Header, nat) -> seq<Byte> {
    (h, offset) => EntryAt(c, h, offset)
  }

  /** What the loops of initrd-extract write for these headers. */
  ghost function WrittenAt(c: Codec, hs: seq<Header>): seq<Byte> {
    Appended(Encoder(c), hs, 0)
  }

  ghost function ExtractBytes(c: Codec, hs: seq<Header>): seq<Byte> {
    var s := WrittenAt(c, hs);
    s + LastAt(HeaderBytes(c, TRAILER_HEADER), TRAILER_HEADER.name, |s|)
  }

  /** The headers of archive number n, counted from 1, or of all archives when n is 0. */
  function Selected(found: seq<Found>, n: nat): seq<Header> {
    if found == [] then []
    else
      var k := |found| - 1;
      var hs := Selected(found[..k], n);
      if found[k].Headers? && (n == 0 || n == k + 1) then hs + found[k].headers else hs
  }

  /** encode is write_cpio's output under another name. */
  ghost predicate Encodes(c: Codec, encode: (Header, nat) -> seq<Byte>) {
    forall h, o: nat {:trigger EntryAt(c, h, o)} :: EntryAt(c, h, o) == encode(h, o)
  }

  method WriteNext(c: Codec, h: Header, offset: nat, output: Output, ghost encode: (Header, nat) -> seq<Byte>) returns (next: nat)
    requires 0 in h.name && |h.body| == h.bodyLen && Encodes(c, encode)
    modifies output
    ensures output.bytes == old(output.bytes) + encode(h, offset) && next == offset + |encode(h, offset)|
  {
    next := output.WriteCpio(c, h, offset);
  }

  /** The inner loop of initrd-extract (lines 167-171): hs was written before more. */
  method WriteHeaders(c: Codec, ghost start: seq<Byte>, ghost hs: seq<Header>, more: seq<Header>, offset: nat, output: Output,
                      ghost encode: (Header, nat) -> seq<Byte>)
    returns (next: nat)
    requires Encodes(c, encode) && Writable(more)
    requires output.bytes == start + Appended(encode, hs, 0) && offset == |Appended(encode, hs, 0)|
    modifies output
    ensures output.bytes == start + Appended(encode, hs + more, 0) && next == |Appended(encode, hs + more, 0)|
  {
    next := offset;
    var i := 0;
    assert hs + more[..0] == hs;
    while i < |more|
      invariant i <= |more|
      invariant output.bytes == start + Appended(encode, hs + more[..i], 0) && next == |Appended(encode, hs + more[..i], 0)|
    {
      AppendedSnoc(encode, hs + more[..i], more[i], start);
      assert hs + more[..i + 1] == hs + more[..i] + [more[i]];
      next := WriteNext(c, more[i], next, output, encode);
      i := i + 1;
    }
    assert more[..i] == more;
  }

  /** The outer loop of initrd-extract (lines 157-174). */
  method WriteSelected(c: Codec, found: seq<Found>, n: nat, output: Output, ghost encode: (Header, nat) -> seq<Byte>) returns (offset: nat)
    requires Encodes(c, encode) && forall f | f in found && f.Headers? :: Writable(f.headers)
    modifies output
    ensures output.bytes == old(output.bytes) + Appended(encode, Selected(found, n), 0) && offset == |Appended(encode, Selected(found, n), 0)|
  {
    offset := 0;
    ghost var start := output.bytes;
    var i := 0;
    while i < |found|
      invariant i <= |found|
      invariant output.bytes == start + Appended(encode, Selected(found[..i], n), 0)
      invariant offset == |Appended(encode, Selected(found[..i], n), 0)|
    {
      SelectedNext(found, i, n);
      if found[i].Headers? && (n == 0 || n == i + 1) {
        offset := WriteHeaders(c, start, Selected(found[..i], n), found[i].headers, offset, output, encode);
      }
      i := i + 1;
    }
    assert found[..i] == found;
  }

  lemma SelectedNext(found: seq<Found>, i: nat, n: nat)
    requires i < |found|
    ensures Selected(found[..i + 1], n) ==
            if found[i].Headers? && (n == 0 || n == i + 1) then Selected(found[..i], n) + found[i].headers else Selected(found[..i], n)
  {
    assert found[..i + 1][..i] == found[..i];
  }

  /** With -n 0 every archive's headers in the order of the archives; otherwise those of that one, counted
      from 1 among archives and bootconfigs alike, or nothing. */
  lemma {:induction false} SelectedMeans(found: seq<Found>, n: nat)
    ensures n == 0 ==> Selected(found, n) == Flat(found)
    ensures n > 0 ==> Selected(found, n) == if n <= |found| && found[n - 1].Headers? then found[n - 1].headers else []
    decreases |found|
  {
    if found != [] {
      SelectedMeans(found[..|found| - 1], n);
      FlatSnoc(found[..|found| - 1], found[|found| - 1]);
      assert found[..|found| - 1] + [found[|found| - 1]] == found;
    }
  }

  /** The headers of all archives, first to last. */
  function Flat(found: seq<Found>): seq<Header> {
    if found == [] then []
    else if found[0].Headers? then found[0].headers + Flat(found[1..])
    else Flat(found[1..])
  }

  lemma {:induction false} FlatSnoc(found: seq<Found>, f: Found)
    ensures Flat(found + [f]) == Flat(found) + if f.Headers? then f.headers else []
    decreases |found|
  {
    if found == [] {
      assert found + [f] == [f] && Flat([]) == [];
    } else {
      assert (found + [f])[1..] == found[1..] + [f];
      FlatSnoc(found[1..], f);
    }
  }

  /** initrd-extract's loops and the trailer (lines 157-177). */
  method Extract(c: Codec, found: seq<Found>, n: nat, output: Output)
    requires forall f | f in found && f.Headers? :: Writable(f.headers)
    modifies output
    ensures output.bytes == old(output.bytes) + ExtractBytes(c, Selected(found, n))
  {
    ghost var start := output.bytes;
    var offset := WriteSelected(c, found, n, output, Encoder(c));
    Associate(start, WrittenAt(c, Selected(found, n)), LastAt(HeaderBytes(c, TRAILER_HEADER), TRAILER_HEADER.name, offset));
    output.WriteTrailer(c, offset);
  }

  // ----- what extraction produces -----

  /** Where every record is encoded alike at multiples of four, appending is concatenating. */
  lemma {:induction false} AppendedAligned<T>(encodeAt: (T, nat) -> seq<Byte>, encode: T -> seq<Byte>, records: seq<T>)
    requires forall r, o: nat | r in records && o % 4 == 0 :: encodeAt(r, o) == encode(r)
    requires forall r | r in records :: |encode(r)| % 4 == 0
    ensures Appended(encodeAt, records, 0) == Written(encode, records) && |Written(encode, records)| % 4 == 0
    decreases |records|
  {
    if records != [] {
      var n := |records| - 1;
      AppendedAligned(encodeAt, encode, records[..n]);
      WrittenSnoc(encode, records[..n], records[n]);
      assert records[..n] + [records[n]] == records && records[n] in records;
      SumMod4(|Written(encode, records[..n])|, |encode(records[n])|);
    }
  }

  /** Extraction writes one archive of the layout that the reader expects. */
  lemma ExtractIsArchive(c: Codec, hs: seq<Header>)
    requires forall h | h in hs :: WellFormed(h)
    ensures ExtractBytes(c, hs) == Archive(c, hs)
  {
    var encode := h => Entry(c, h);
    forall h, o: nat | h in hs && o % 4 == 0 ensures Encoder(c)(h, o) == encode(h) {
      WrittenIsLayout(c, h, o);
    }
    forall h | h in hs ensures |encode(h)| % 4 == 0 {
      LayoutSize(HeaderBytes(c, h), h.name, h.body);
    }
    AppendedAligned(Encoder(c), encode, hs);
    PaddedLast(WrittenAt(c, hs), HeaderBytes(c, TRAILER_HEADER), TRAILER_HEADER.name);
  }

  lemma PaddedLast(s: seq<Byte>, head: seq<Byte>, name: seq<Byte>)
    ensures s + LastAt(head, name, |s|) == Padded(s + Layout(head, name, []))
  {
  }

  lemma {:induction false} SelectedStorable(found: seq<Found>, n: nat)
    requires forall f | f in found && f.Headers? :: Storable(f.headers)
    ensures Storable(Selected(found, n))
    decreases |found|
  {
    if found != [] {
      SelectedStorable(found[..|found| - 1], n);
    }
  }

  /** What is extracted from any image is read back as one archive of the selected headers, and
      extracting it again changes no byte. */
  lemma ExtractAgain(c: Codec, unpack: Unpack, depth: nat, found: seq<Found>, n: nat)
    requires Faithful(c) && Eats(unpack) && forall f | f in found && f.Headers? :: Storable(f.headers)
    ensures var hs := Selected(found, n);
            && ReadImage(c, unpack, depth, ExtractBytes(c, hs)) == Done([Headers(hs)])
            && ExtractBytes(c, Selected([Headers(hs)], 0)) == ExtractBytes(c, hs)
  {
    var hs := Selected(found, n);
    SelectedStorable(found, n);
    ExtractIsArchive(c, hs);
    ArchiveReadsBack(c, unpack, depth, hs);
    SelectedOne(hs);
  }

  lemma SelectedOne(hs: seq<Header>)
    ensures Selected([Headers(hs)], 0) == hs
  {
    assert [Headers(hs)][..0] == [] && [] + hs == hs;
  }
}

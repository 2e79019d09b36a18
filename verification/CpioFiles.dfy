/** The loops of utils/initrd-cpio.c, proved to produce and to accept the layout of module Cpio. */
module CpioFiles {
  import opened Cpio

  // ----- the writer -----

  /** The bytes up to and with the first zero: what strlen and fputc make of a name. */
  function CString(name: seq<Byte>): (s: seq<Byte>)
    ensures 0 in name ==> 1 <= |s| <= |name| && s == name[..|s|]
  {
    if name == [] || name[0] == 0 then [0] else [name[0]] + CString(name[1..])
  }

  function Pad(x: nat): seq<Byte> {
    Zeros(RoundUp4(x) - x)
  }

  /** The body at an offset, or nothing when it is empty. */
  function BodyAt(body: seq<Byte>, offset: nat): seq<Byte> {
    if body == [] then [] else body + Pad(offset + |body|)
  }

  /** A header's text, a name and a body as they are laid out at any offset. */
  function Laid(head: seq<Byte>, name: seq<Byte>, body: seq<Byte>, bodiless: bool, offset: nat): seq<Byte> {
    var named := name + Pad(offset + |head| + |name|);
    if bodiless then head + (name + Pad(HEADER_SIZE + |name|))
    else head + named + BodyAt(body, offset + |head + named|)
  }

  /** What write_cpio appends at any offset. */
  function EntryAt(c: Codec, h: Header, offset: nat): seq<Byte> {
    Laid(HeaderBytes(c, h), CString(h.name), h.body, Bodiless(h.mode), offset)
  }

  /** The last entry and the zeros up to a multiple of 512. */
  function LastAt(head: seq<Byte>, name: seq<Byte>, offset: nat): seq<Byte> {
    var s := Layout(head, name, []);
    s + Zeros(RoundUp512(offset + |s|) - (offset + |s|))
  }

  class Output {
    var bytes: seq<Byte>

    method Put(s: seq<Byte>)
      modifies this
      ensures bytes == old(bytes) + s
    {
      bytes := bytes + s;
    }

    method PushRest(name: seq<Byte>, offset: nat) returns (next: nat)
      requires 0 in name
      modifies this
      ensures var s := CString(name) + Pad(HEADER_SIZE + |CString(name)|); bytes == old(bytes) + s && next == offset + |s|
    {
      var s := CString(name);
      Put(s);
      next := offset + |s|;
      var at := HEADER_SIZE + |s|;
      ghost var pad: nat := 0;
      while at % 4 != 0
        invariant HEADER_SIZE + |s| + pad == at <= RoundUp4(HEADER_SIZE + |s|)
        invariant bytes == old(bytes) + (s + Zeros(pad)) && next == offset + |s| + pad
        decreases RoundUp4(HEADER_SIZE + |s|) - at
      {
        Put([0]);
        next, at, pad := next + 1, at + 1, pad + 1;
      }
    }

    method PushPad(offset: nat) returns (next: nat)
      modifies this
      ensures bytes == old(bytes) + Pad(offset) && next == RoundUp4(offset)
    {
      next := offset;
      while next % 4 != 0
        invariant offset <= next <= RoundUp4(offset)
        invariant bytes == old(bytes) + Zeros(next - offset)
        decreases RoundUp4(offset) - next
      {
        Put([0]);
        next := next + 1;
      }
    }

    /** push_string and push_pad (lines 225-226). */
    method PushNamed(name: seq<Byte>, offset: nat) returns (next: nat)
      requires 0 in name
      modifies this
      ensures var s := CString(name) + Pad(offset + |CString(name)|); bytes == old(bytes) + s && next == offset + |s|
    {
      var s := CString(name);
      Put(s);
      next := PushPad(offset + |s|);
    }

    /** The body, when there is one (lines 228-232). */
    method PushBody(body: seq<Byte>, offset: nat) returns (next: nat)
      modifies this
      ensures bytes == old(bytes) + BodyAt(body, offset) && next == offset + |BodyAt(body, offset)|
    {
      next := offset;
      if |body| != 0 {
        Put(body);
        next := PushPad(next + |body|);
      }
    }

    /** The entry of a file without a body, from its header on (lines 215-223). */
    method WriteBodiless(head: seq<Byte>, name: seq<Byte>, offset: nat) returns (next: nat)
      requires 0 in name
      modifies this
      ensures var s := head + (CString(name) + Pad(HEADER_SIZE + |CString(name)|)); bytes == old(bytes) + s && next == offset + |s|
    {
      ghost var start := bytes;
      Put(head);
      next := PushRest(name, offset + |head|);
      Associate(start, head, CString(name) + Pad(HEADER_SIZE + |CString(name)|));
    }

    /** The entry of any other file (lines 224-234). */
    method WriteBodied(head: seq<Byte>, name: seq<Byte>, body: seq<Byte>, offset: nat) returns (next: nat)
      requires 0 in name
      modifies this
      ensures var named := head + (CString(name) + Pad(offset + |head| + |CString(name)|));
              var s := named + BodyAt(body, offset + |named|);
              bytes == old(bytes) + s && next == offset + |s|
    {
      ghost var start := bytes;
      Put(head);
      ghost var name' := CString(name) + Pad(offset + |head| + |CString(name)|);
      next := PushNamed(name, offset + |head|);
      Associate(start, head, name');
      Associate(start, head + name', BodyAt(body, next));
      next := PushBody(body, next);
    }

    /** Everything of write_cpio behind the formatting of the header (lines 213-234). */
    method WriteLaid(head: seq<Byte>, name: seq<Byte>, body: seq<Byte>, bodiless: bool, offset: nat) returns (next: nat)
      requires 0 in name
      modifies this
      ensures var s := Laid(head, CString(name), body, bodiless, offset); bytes == old(bytes) + s && next == offset + |s|
    {
      if bodiless {
        next := WriteBodiless(head, name, offset);
      } else {
        next := WriteBodied(head, name, body, offset);
      }
    }

    /** write_cpio (lines 189-235). */
    method WriteCpio(c: Codec, h: Header, offset: nat) returns (next: nat)
      requires 0 in h.name && |h.body| == h.bodyLen
      modifies this
      ensures bytes == old(bytes) + EntryAt(c, h, offset) && next == offset + |EntryAt(c, h, offset)|
      ensures WellFormed(h) && offset % 4 == 0 ==> bytes == old(bytes) + Entry(c, h)
    {
      if WellFormed(h) && offset % 4 == 0 {
        WrittenIsLayout(c, h, offset);
      }
      var head := HeaderBytes(c, h);
      next := WriteLaid(head, h.name, h.body, Bodiless(h.mode), offset);
    }

    method PadTo512(offset: nat)
      modifies this
      ensures bytes == old(bytes) + Zeros(RoundUp512(offset) - offset)
    {
      var at := offset;
      while at % 512 != 0
        invariant offset <= at <= RoundUp512(offset)
        invariant bytes == old(bytes) + Zeros(at - offset)
        decreases RoundUp512(offset) - at
      {
        Put([0]);
        at := at + 1;
      }
    }

    /** write_trailer behind the formatting of its header (lines 260-266). */
    method WriteLast(head: seq<Byte>, name: seq<Byte>, offset: nat)
      requires |head| == HEADER_SIZE && 0 in name && CString(name) == name
      modifies this
      ensures bytes == old(bytes) + LastAt(head, name, offset)
    {
      BareLayout(head, name);
      var at := WriteBodiless(head, name, offset);
      Associate(old(bytes), Layout(head, name, []), Zeros(RoundUp512(at) - at));
      PadTo512(at);
    }

    /** write_trailer (lines 237-267). */
    method WriteTrailer(c: Codec, offset: nat)
      modifies this
      ensures bytes == old(bytes) + LastAt(HeaderBytes(c, TRAILER_HEADER), TRAILER_HEADER.name, offset)
    {
      TrailerName(TRAILER_HEADER.name);
      WriteLast(HeaderBytes(c, TRAILER_HEADER), TRAILER_HEADER.name, offset);
    }
  }

  lemma {:induction false} CStringWhole(name: seq<Byte>)
    requires |name| > 0 && name[|name| - 1] == 0 && forall i | 0 <= i < |name| - 1 :: name[i] != 0
    ensures CString(name) == name
    decreases |name|
  {
    if |name| > 1 {
      CStringWhole(name[1..]);
      assert [name[0]] + name[1..] == name;
    }
  }

  lemma TrailerName(name: seq<Byte>)
    requires name == TRAILER + [0]
    ensures 0 in name && CString(name) == name
  {
    assert name[10] == 0;
    CStringWhole(name);
  }

  lemma BareLayout(head: seq<Byte>, name: seq<Byte>)
    requires |head| == HEADER_SIZE
    ensures Layout(head, name, []) == head + (name + Pad(HEADER_SIZE + |name|))
  {
    LaidIsLayout(head, name, [], true, 0);
  }

  lemma LaidIsLayout(head: seq<Byte>, name: seq<Byte>, body: seq<Byte>, bodiless: bool, offset: nat)
    requires |head| == HEADER_SIZE && offset % 4 == 0 && (bodiless ==> body == [])
    ensures Laid(head, name, body, bodiless, offset) == Layout(head, name, body)
  {
    AlignmentsAgree(0, |name|, 0);
    AlignmentsAgree(offset, |name|, |body|);
    assert Zeros(0) == [];
  }

  /** At a multiple of four, what write_cpio appends for a well-formed header is the layout that read_cpio expects. */
  lemma WrittenIsLayout(c: Codec, h: Header, offset: nat)
    requires WellFormed(h) && offset % 4 == 0
    ensures EntryAt(c, h, offset) == Entry(c, h)
  {
    CStringWhole(h.name);
    LaidIsLayout(HeaderBytes(c, h), h.name, h.body, Bodiless(h.mode), offset);
  }

  lemma BodyDropped(head: seq<Byte>, name: seq<Byte>, body: seq<Byte>, offset: nat)
    requires |head| == HEADER_SIZE && body != []
    ensures |Laid(head, name, body, true, offset)| < |Layout(head, name, body)|
  {
    AlignmentsAgree(0, |name|, 0);
    LayoutSize(head, name, body);
  }

  /** Exactly the fifos, devices, directories and sockets lose a body when they are written. */
  lemma BodyKeptIff(c: Codec, h: Header, offset: nat)
    requires Framed(h) && offset % 4 == 0
    ensures EntryAt(c, h, offset) == Entry(c, h) <==> h.body == [] || h.mode / 4096 % 16 !in {1, 2, 4, 6, 12}
  {
    if WellFormed(h) {
      WrittenIsLayout(c, h, offset);
    } else {
      CStringWhole(h.name);
      BodyDropped(HeaderBytes(c, h), h.name, h.body, offset);
    }
  }

  // ----- the reader -----

  lemma ReadStep(c: Codec, raw: seq<Byte>, offset: nat, headers: seq<Header>)
    requires offset < |raw|
    ensures Prepend(headers, ReadFrom(c, raw, offset)) ==
            match ReadEntry(c, raw, offset)
            case Err(e) => Err(e)
            case Ok((h, next)) =>
              if IsTrailer(h) then Ok((headers, RoundUp512(next)))
              else Prepend(headers + [h], ReadFrom(c, raw, next))
  {
    var turn := Turns(c, raw);
    assert turn(offset) == TurnAt(c, raw, offset);
    if turn(offset).More? {
      PrependTwice(headers, [turn(offset).record], ReadFrom(c, raw, turn(offset).next));
    } else if turn(offset).Last? {
      assert headers + [] == headers;
    }
  }

  /** read_cpio (lines 86-139). */
  method ReadCpio(c: Codec, raw: seq<Byte>) returns (r: Result<(seq<Header>, nat)>)
    ensures r == ReadFrom(c, raw, 0)
  {
    var offset, headers := 0, [];
    PrependTwice([], [], ReadFrom(c, raw, 0));
    while offset < |raw|
      invariant ReadFrom(c, raw, 0) == Prepend(headers, ReadFrom(c, raw, offset))
      decreases |raw| - offset
    {
      ReadStep(c, raw, offset, headers);
      var entry := ReadEntry(c, raw, offset);
      if entry.Err? {
        return Err(entry.error);
      }
      headers := headers + [entry.value.0];
      offset := entry.value.1;
      if IsTrailer(entry.value.0) {
        headers := headers[..|headers| - 1];
        offset := SkipTo512(offset);
        return Ok((headers, offset));
      }
    }
    assert headers + [] == headers;
    return Ok((headers, offset));
  }

  method SkipTo512(offset: nat) returns (next: nat)
    ensures next == RoundUp512(offset)
  {
    next := offset;
    while next % 512 != 0
      invariant offset <= next <= RoundUp512(offset)
      decreases RoundUp512(offset) - next
    {
      next := next + 1;
    }
  }
}

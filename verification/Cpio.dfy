/** The cpio "newc" format as utils/initrd-cpio.c reads and writes it. */
module Cpio {
  type Byte = x: int | 0 <= x < 256

  datatype Error = TooSmall | OldFormat | NoMagic | HeaderExceeds | BadNameLength | EntryExceeds

  datatype Result<+T> = Ok(value: T) | Err(error: Error)

  /** struct cpio_header.  name and body are the bytes that the source's pointers and lengths
      delimit; rdev, which is computed from rmajor and rminor, is left out. */
  datatype Header = Header(
    ino: nat, mode: nat, uid: nat, gid: nat, nlink: nat, mtime: nat, bodyLen: nat,
    major: nat, minor: nat, rmajor: nat, rminor: nat, nameLen: nat,
    name: seq<Byte>, body: seq<Byte>)

  const HEADER_SIZE: nat := 110
  const MAGIC_SIZE: nat := 6
  const FIELD_SIZE: nat := 8

  /** "070701", "070707" and "TRAILER!!!" in ASCII. */
  const NEWASCII: seq<Byte> := [48, 55, 48, 55, 48, 49]
  const OLDASCII: seq<Byte> := [48, 55, 48, 55, 48, 55]
  const TRAILER: seq<Byte> := [84, 82, 65, 73, 76, 69, 82, 33, 33, 33]

  // ----- the text of a number -----

  type Field = s: seq<Byte> | |s| == FIELD_SIZE witness [0, 0, 0, 0, 0, 0, 0, 0]

  /** The two library conversions: snprintf of one field and strtoul of one field. */
  datatype Codec = Codec(digits: nat -> Field, number: Field -> nat)

  const LIMIT: nat := 0x1_0000_0000

  /** Numbers below 2^32 survive being printed and read. */
  ghost predicate Faithful(c: Codec) {
    forall n: nat | n < LIMIT :: c.number(c.digits(n)) == n
  }

  function HexDigit(d: nat): Byte
    requires d < 16
  {
    if d < 10 then 48 + d else 55 + d
  }

  predicate IsHex(b: Byte) {
    48 <= b <= 57 || 65 <= b <= 70 || 97 <= b <= 102
  }

  function HexValue(b: Byte): nat
    requires IsHex(b)
  {
    if b <= 57 then b - 48 else if b <= 70 then b - 55 else b - 87
  }

  function Pow16(width: nat): nat {
    if width == 0 then 1 else 16 * Pow16(width - 1)
  }

  /** "%0<width>X" for a value that fits. */
  function Hex(n: nat, width: nat): (s: seq<Byte>)
    ensures |s| == width
    decreases n, width
  {
    if width == 0 then [] else Hex(n / 16, width - 1) + [HexDigit(n % 16)]
  }

  /** strtoul in base 16 for text without blanks, sign or prefix: the value of the leading hex digits. */
  function Strtoul16(s: seq<Byte>, acc: nat): nat
    decreases |s|
  {
    if s == [] || !IsHex(s[0]) then acc else Strtoul16(s[1..], 16 * acc + HexValue(s[0]))
  }

  const HEX: Codec := Codec(n => Hex(n, FIELD_SIZE), s => Strtoul16(s, 0))

  lemma {:induction false} StrtoulAppend(s: seq<Byte>, b: Byte, acc: nat)
    requires (forall i | 0 <= i < |s| :: IsHex(s[i])) && IsHex(b)
    ensures Strtoul16(s + [b], acc) == 16 * Strtoul16(s, acc) + HexValue(b)
    decreases |s|
  {
    if s == [] {
      assert (s + [b])[1..] == [];
    } else {
      assert (s + [b])[1..] == s[1..] + [b];
      StrtoulAppend(s[1..], b, 16 * acc + HexValue(s[0]));
    }
  }

  lemma {:induction false} HexIsHex(n: nat, width: nat)
    ensures forall i | 0 <= i < width :: 48 <= Hex(n, width)[i] <= 57 || 65 <= Hex(n, width)[i] <= 70
    decreases width
  {
    if width > 0 {
      HexIsHex(n / 16, width - 1);
    }
  }

  lemma {:induction false} HexRoundTrip(n: nat, width: nat)
    requires n < Pow16(width)
    ensures Strtoul16(Hex(n, width), 0) == n
    decreases width
  {
    if width > 0 {
      HexIsHex(n / 16, width - 1);
      HexRoundTrip(n / 16, width - 1);
      StrtoulAppend(Hex(n / 16, width - 1), HexDigit(n % 16), 0);
    }
  }

  /** Eight upper-case digits and strtoul in base 16 undo each other. */
  lemma HexIsFaithful()
    ensures Faithful(HEX)
  {
    assert Pow16(8) == 65536 * Pow16(4) && Pow16(4) == 65536;
    forall n: nat | n < LIMIT ensures HEX.number(HEX.digits(n)) == n {
      HexRoundTrip(n, FIELD_SIZE);
    }
  }

  // ----- alignment -----

  /** N_ALIGN: from the end of the header to the body (line 36). */
  function NAlign(len: nat): nat {
    (len + 1) / 4 * 4 + 2
  }

  /** (x + 3) & ~3 (line 123). */
  function RoundUp4(x: nat): nat {
    (x + 3) / 4 * 4
  }

  function RoundUp512(x: nat): nat {
    (x + 511) / 512 * 512
  }

  function Zeros(n: nat): (z: seq<Byte>)
    ensures |z| == n && forall i | 0 <= i < n :: z[i] == 0
  {
    if n == 0 then [] else Zeros(n - 1) + [0]
  }

  lemma SumMod4(a: nat, b: nat)
    requires a % 4 == 0 && b % 4 == 0
    ensures (a + b) % 4 == 0
  {
  }

  lemma RoundUpShift(k: nat, x: nat)
    ensures RoundUp4(4 * k + x) == 4 * k + RoundUp4(x)
  {
  }

  /** The reader's alignment arithmetic agrees with the writer's at every multiple of four. */
  lemma AlignmentsAgree(offset: nat, nameLen: nat, bodyLen: nat)
    requires offset % 4 == 0
    ensures RoundUp4(offset + HEADER_SIZE + NAlign(nameLen) + bodyLen) == offset + HEADER_SIZE + NAlign(nameLen) + RoundUp4(bodyLen)
    ensures RoundUp4(offset + HEADER_SIZE + nameLen) == offset + HEADER_SIZE + NAlign(nameLen)
  {
    RoundUpShift(offset / 4 + 28 + (nameLen + 1) / 4, bodyLen);
    RoundUpShift(offset / 4 + 27, nameLen + 2);
  }

  // ----- streams of records -----

  /** What one turn of a reading loop found at an offset. */
  datatype Turn<+T> = Fail(error: Error) | Last(next: nat) | More(record: T, next: nat)

  function Written<T>(encode: T -> seq<Byte>, records: seq<T>): seq<Byte> {
    if records == [] then [] else encode(records[0]) + Written(encode, records[1..])
  }

  ghost predicate Advances<T>(turn: nat -> Turn<T>) {
    forall o: nat :: !turn(o).Fail? ==> turn(o).next > o
  }

  function Prepend<T>(records: seq<T>, r: Result<(seq<T>, nat)>): Result<(seq<T>, nat)> {
    match r
    case Err(e) => Err(e)
    case Ok((rs, end)) => Ok((records + rs, end))
  }

  lemma PrependTwice<T>(a: seq<T>, b: seq<T>, r: Result<(seq<T>, nat)>)
    ensures Prepend(a, Prepend(b, r)) == Prepend(a + b, r) && Prepend([], r) == r
  {
    if r.Ok? {
      assert a + (b + r.value.0) == a + b + r.value.0 && [] + r.value.0 == r.value.0;
    }
  }

  /** Turns from offset on, until the last record or the end of the input. */
  function ReadAll<T>(turn: nat -> Turn<T>, size: nat, offset: nat): Result<(seq<T>, nat)>
    requires Advances(turn)
    decreases size - offset
  {
    if offset >= size then Ok(([], offset))
    else match turn(offset)
         case Fail(e) => Err(e)
         case Last(next) => Ok(([], RoundUp512(next)))
         case More(r, next) => Prepend([r], ReadAll(turn, size, next))
  }

  /** Something is consumed whenever there is something to read. */
  lemma {:induction false} ReadAllAdvances<T>(turn: nat -> Turn<T>, size: nat, offset: nat)
    requires Advances(turn)
    ensures var r := ReadAll(turn, size, offset); r.Ok? ==> r.value.1 >= offset && (offset < size ==> r.value.1 > offset)
    decreases size - offset
  {
    if offset < size && turn(offset).More? {
      ReadAllAdvances(turn, size, turn(offset).next);
    } else if offset < size && turn(offset).Last? {
      RoundUp512Grows(turn(offset).next);
    }
  }

  lemma RoundUp512Grows(x: nat)
    ensures RoundUp512(x) >= x
  {
  }

  /** s stands in raw at offset. */
  ghost predicate At(raw: seq<Byte>, offset: nat, s: seq<Byte>) {
    offset + |s| <= |raw| && raw[offset..offset + |s|] == s
  }

  lemma AtParts(raw: seq<Byte>, offset: nat, s: seq<Byte>, t: seq<Byte>)
    requires At(raw, offset, s + t)
    ensures At(raw, offset, s) && At(raw, offset + |s|, t)
  {
    var u := raw[offset..offset + |s| + |t|];
    assert s == u[..|s|] == raw[offset..offset + |s|];
    assert t == u[|s|..] == raw[offset + |s|..offset + |s| + |t|];
  }

  /** The encoded form of r is read back as r wherever it stands at a multiple of four. */
  ghost predicate ReadsBack<T>(raw: seq<Byte>, encode: T -> seq<Byte>, turn: nat -> Turn<T>, r: T) {
    && |encode(r)| % 4 == 0
    && forall o: nat | o % 4 == 0 && At(raw, o, encode(r)) :: turn(o) == More(r, o + |encode(r)|)
  }

  ghost predicate EndsReading<T>(raw: seq<Byte>, last: seq<Byte>, turn: nat -> Turn<T>) {
    && |last| > 0
    && forall o: nat | o % 4 == 0 && At(raw, o, last) :: turn(o) == Last(o + |last|)
  }

  /** The first record is read, and the others stand right behind it. */
  lemma FirstReadsBack<T>(raw: seq<Byte>, offset: nat, encode: T -> seq<Byte>, r: T, behind: seq<Byte>, turn: nat -> Turn<T>)
    requires ReadsBack(raw, encode, turn, r) && offset % 4 == 0 && At(raw, offset, encode(r) + behind)
    ensures turn(offset) == More(r, offset + |encode(r)|) && (offset + |encode(r)|) % 4 == 0
    ensures At(raw, offset + |encode(r)|, behind)
  {
    AtParts(raw, offset, encode(r), behind);
    SumMod4(offset, |encode(r)|);
  }

  lemma Associate(a: seq<Byte>, b: seq<Byte>, c: seq<Byte>)
    ensures a + b + c == a + (b + c)
  {
  }

  lemma HeadAndTail<T>(s: seq<T>)
    requires s != []
    ensures [s[0]] + s[1..] == s
  {
  }

  lemma WrittenFirst<T>(encode: T -> seq<Byte>, records: seq<T>, last: seq<Byte>)
    requires records != []
    ensures Written(encode, records) + last == encode(records[0]) + (Written(encode, records[1..]) + last)
    decreases |records|
  {
    Associate(encode(records[0]), Written(encode, records[1..]), last);
  }

  /** Records that each read back on their own read back one after another. */
  lemma {:induction false} RecordsReadBack<T>(raw: seq<Byte>, offset: nat, encode: T -> seq<Byte>, records: seq<T>,
                                              last: seq<Byte>, turn: nat -> Turn<T>)
    requires Advances(turn)
    requires (forall r | r in records :: ReadsBack(raw, encode, turn, r)) && EndsReading(raw, last, turn)
    requires offset % 4 == 0 && At(raw, offset, Written(encode, records) + last)
    ensures ReadAll(turn, |raw|, offset) == Ok((records, RoundUp512(offset + |Written(encode, records)| + |last|)))
    decreases |records|
  {
    if records == [] {
      assert Written(encode, records) + last == last;
    } else {
      var r, rs := records[0], records[1..];
      WrittenFirst(encode, records, last);
      HeadAndTail(records);
      FirstReadsBack(raw, offset, encode, r, Written(encode, rs) + last, turn);
      RecordsReadBack(raw, offset + |encode(r)|, encode, rs, last, turn);
    }
  }

  /** s and the zeros up to a multiple of 512. */
  function Padded(s: seq<Byte>): (r: seq<Byte>)
    ensures |r| == RoundUp512(|s|)
  {
    s + Zeros(RoundUp512(|s|) - |s|)
  }

  lemma PaddedSize(s: seq<Byte>)
    requires s != []
    ensures |Padded(s)| % 512 == 0 && |Padded(s)| > 0
  {
  }

  lemma PaddedReadsBack<T>(encode: T -> seq<Byte>, records: seq<T>, last: seq<Byte>, rest: seq<Byte>, turn: nat -> Turn<T>)
    requires Advances(turn)
    requires var raw := Padded(Written(encode, records) + last) + rest;
             (forall r | r in records :: ReadsBack(raw, encode, turn, r)) && EndsReading(raw, last, turn)
    ensures var archive := Padded(Written(encode, records) + last);
            ReadAll(turn, |archive + rest|, 0) == Ok((records, |archive|)) && |archive| % 512 == 0 && |archive| > 0
  {
    var s := Written(encode, records) + last;
    var raw := Padded(s) + rest;
    assert raw[0..|s|] == s;
    PaddedSize(s);
    RecordsReadBack(raw, 0, encode, records, last, turn);
  }

  // ----- the layout of an archive -----

  /** The thirteen numbers of a header in their order (lines 194-211); the checksum is 0. */
  function Fields(h: Header): seq<nat> {
    [h.ino, h.mode, h.uid, h.gid, h.nlink, h.mtime, h.bodyLen, h.major, h.minor, h.rmajor, h.rminor, h.nameLen, 0]
  }

  function PrintFields(c: Codec, fields: seq<nat>): (s: seq<Byte>)
    ensures |s| == FIELD_SIZE * |fields|
  {
    if fields == [] then [] else PrintFields(c, fields[..|fields| - 1]) + c.digits(fields[|fields| - 1])
  }

  function HeaderBytes(c: Codec, h: Header): (s: seq<Byte>)
    ensures |s| == HEADER_SIZE
  {
    NEWASCII + PrintFields(c, Fields(h))
  }

  /** A header's text, its name and its body, each padded to a multiple of four. */
  function Layout(head: seq<Byte>, name: seq<Byte>, body: seq<Byte>): seq<Byte> {
    head + name + Zeros(NAlign(|name|) - |name|) + body + Zeros(RoundUp4(|body|) - |body|)
  }

  function Entry(c: Codec, h: Header): seq<Byte> {
    Layout(HeaderBytes(c, h), h.name, h.body)
  }

  const TRAILER_HEADER: Header := Header(0, 0, 0, 0, 1, 0, 0, 0, 0, 0, 0, 11, TRAILER + [0], [])

  /** The entries, the trailer and zeros up to a multiple of 512. */
  function Archive(c: Codec, hs: seq<Header>): seq<Byte> {
    Padded(Written(h => Entry(c, h), hs) + Entry(c, TRAILER_HEADER))
  }

  /** Block and character devices, directories, fifos and sockets (lines 215-220). */
  predicate Bodiless(mode: nat) {
    mode / 4096 % 16 in {6, 2, 4, 1, 12}
  }

  /** Numbers of 32 bits, a C string for a name, and the body announced. */
  ghost predicate Framed(h: Header) {
    && (forall i | 0 <= i < 13 :: Fields(h)[i] < LIMIT)
    && |h.name| == h.nameLen >= 1 && h.name[h.nameLen - 1] == 0 && (forall i | 0 <= i < h.nameLen - 1 :: h.name[i] != 0)
    && |h.body| == h.bodyLen
  }

  /** What an entry can represent: fifos (1), character devices (2), directories (4), block
      devices (6) and sockets (12) have no body. */
  ghost predicate WellFormed(h: Header) {
    Framed(h) && (h.mode / 4096 % 16 in {1, 2, 4, 6, 12} ==> h.body == [])
  }

  predicate IsTrailer(h: Header) {
    h.nameLen >= |TRAILER| + 1 && |h.name| >= |TRAILER| && h.name[..|TRAILER|] == TRAILER
  }

  /** The name does not begin with "TRAILER!!!" unless that is all there is, without its zero. */
  ghost predicate Ordinary(h: Header) {
    h.nameLen <= 10 || |h.name| < 10 || h.name[..10] != [84, 82, 65, 73, 76, 69, 82, 33, 33, 33]
  }

  ghost predicate Storable(hs: seq<Header>) {
    forall h | h in hs :: WellFormed(h) && Ordinary(h)
  }

  // ----- what the reader accepts -----

  /** The numbers in a block of eight-digit fields (lines 56-65). */
  function ParseFields(c: Codec, s: seq<Byte>): (fields: seq<nat>)
    ensures |fields| == |s| / FIELD_SIZE
  {
    if |s| < FIELD_SIZE then []
    else ParseFields(c, s[..|s| - FIELD_SIZE]) + [c.number(s[|s| - FIELD_SIZE..])]
  }

  /** The header that thirteen numbers, a name and a body make up (lines 67-81). */
  function FromFields(fields: seq<nat>, name: seq<Byte>, body: seq<Byte>): Header
    requires |fields| == 13
  {
    Header(fields[0], fields[1], fields[2], fields[3], fields[4], fields[5], fields[6], fields[7], fields[8], fields[9],
           fields[10], fields[11], name, body)
  }

  /** The header at offset and where the next one starts. */
  function ReadEntry(c: Codec, raw: seq<Byte>, offset: nat): Result<(Header, nat)>
    requires offset < |raw|
  {
    if |raw| < MAGIC_SIZE + HEADER_SIZE then Err(TooSmall)
    else if offset + MAGIC_SIZE <= |raw| && raw[offset..offset + MAGIC_SIZE] == OLDASCII then Err(OldFormat)
    else if offset + MAGIC_SIZE > |raw| || raw[offset..offset + MAGIC_SIZE] != NEWASCII then Err(NoMagic)
    else if offset + HEADER_SIZE > |raw| then Err(HeaderExceeds)
    else
      var fields := ParseFields(c, raw[offset + MAGIC_SIZE..offset + HEADER_SIZE]);
      var nameLen, bodyLen := fields[11], fields[6];
      var name := offset + HEADER_SIZE;
      var body := name + NAlign(nameLen);
      if nameLen == 0 then Err(BadNameLength)
      else if body + bodyLen > |raw| || RoundUp4(body + bodyLen) > |raw| then Err(EntryExceeds)
      else Ok((FromFields(fields, raw[name..name + nameLen], raw[body..body + bodyLen]), RoundUp4(body + bodyLen)))
  }

  function TurnAt(c: Codec, raw: seq<Byte>, offset: nat): (t: Turn<Header>)
    ensures !t.Fail? ==> t.next > offset
  {
    if offset >= |raw| then Fail(TooSmall)
    else match ReadEntry(c, raw, offset)
         case Err(e) => Fail(e)
         case Ok((h, next)) => if IsTrailer(h) then Last(next) else More(h, next)
  }

  ghost function Turns(c: Codec, raw: seq<Byte>): (turn: nat -> Turn<Header>)
    ensures Advances(turn)
  {
    (o: nat) => TurnAt(c, raw, o)
  }

  /** The headers from offset on, and the offset behind the archive. */
  ghost function ReadFrom(c: Codec, raw: seq<Byte>, offset: nat): Result<(seq<Header>, nat)> {
    ReadAll(Turns(c, raw), |raw|, offset)
  }

  // ----- round trip -----

  lemma ParseSnoc(c: Codec, s: seq<Byte>, t: Field)
    ensures ParseFields(c, s + t) == ParseFields(c, s) + [c.number(t)]
  {
    assert (s + t)[..|s|] == s && (s + t)[|s|..] == t;
  }

  lemma {:induction false} FieldsRoundTrip(c: Codec, fields: seq<nat>)
    requires Faithful(c) && forall i | 0 <= i < |fields| :: fields[i] < LIMIT
    ensures ParseFields(c, PrintFields(c, fields)) == fields
    decreases |fields|
  {
    if fields != [] {
      var n := |fields| - 1;
      FieldsRoundTrip(c, fields[..n]);
      ParseSnoc(c, PrintFields(c, fields[..n]), c.digits(fields[n]));
      assert fields[..n] + [fields[n]] == fields;
    }
  }

  lemma PrintedHeader(c: Codec, raw: seq<Byte>, offset: nat, fields: seq<nat>)
    requires Faithful(c) && |fields| == 13 && (forall i | 0 <= i < 13 :: fields[i] < LIMIT)
    requires At(raw, offset, NEWASCII + PrintFields(c, fields))
    ensures raw[offset..offset + MAGIC_SIZE] == NEWASCII
    ensures ParseFields(c, raw[offset + MAGIC_SIZE..offset + HEADER_SIZE]) == fields
  {
    AtParts(raw, offset, NEWASCII, PrintFields(c, fields));
    FieldsRoundTrip(c, fields);
  }

  lemma LayoutSize(head: seq<Byte>, name: seq<Byte>, body: seq<Byte>)
    requires |head| == HEADER_SIZE
    ensures |Layout(head, name, body)| == HEADER_SIZE + NAlign(|name|) + RoundUp4(|body|) && |Layout(head, name, body)| % 4 == 0
  {
  }

  lemma LayoutParts(raw: seq<Byte>, offset: nat, head: seq<Byte>, name: seq<Byte>, body: seq<Byte>)
    requires |head| == HEADER_SIZE && At(raw, offset, Layout(head, name, body))
    ensures At(raw, offset, head) && At(raw, offset + HEADER_SIZE, name)
    ensures At(raw, offset + HEADER_SIZE + NAlign(|name|), body)
    ensures offset + HEADER_SIZE + NAlign(|name|) + RoundUp4(|body|) <= |raw|
  {
    var gap, pad := Zeros(NAlign(|name|) - |name|), Zeros(RoundUp4(|body|) - |body|);
    AtParts(raw, offset, head + name + gap + body, pad);
    AtParts(raw, offset, head + name + gap, body);
    AtParts(raw, offset, head + name, gap);
    AtParts(raw, offset, head, name);
  }

  lemma ReadAccepts(c: Codec, raw: seq<Byte>, offset: nat, fields: seq<nat>, name: seq<Byte>, body: seq<Byte>, next: nat)
    requires |raw| >= MAGIC_SIZE + HEADER_SIZE && offset + HEADER_SIZE <= |raw|
    requires raw[offset..offset + MAGIC_SIZE] == NEWASCII
    requires ParseFields(c, raw[offset + MAGIC_SIZE..offset + HEADER_SIZE]) == fields && |fields| == 13
    requires |name| == fields[11] > 0 && |body| == fields[6]
    requires At(raw, offset + HEADER_SIZE, name) && At(raw, offset + HEADER_SIZE + NAlign(|name|), body)
    requires RoundUp4(offset + HEADER_SIZE + NAlign(|name|) + |body|) == next <= |raw|
    ensures ReadEntry(c, raw, offset) == Ok((FromFields(fields, name, body), next))
  {
    assert NEWASCII[5] != OLDASCII[5];
  }

  lemma PartsReadBack(c: Codec, raw: seq<Byte>, offset: nat, h: Header, next: nat)
    requires Faithful(c) && WellFormed(h) && offset % 4 == 0 && |raw| >= MAGIC_SIZE + HEADER_SIZE
    requires At(raw, offset, HeaderBytes(c, h)) && At(raw, offset + HEADER_SIZE, h.name)
    requires At(raw, offset + HEADER_SIZE + NAlign(h.nameLen), h.body)
    requires offset + HEADER_SIZE + NAlign(h.nameLen) + RoundUp4(h.bodyLen) == next <= |raw|
    ensures ReadEntry(c, raw, offset) == Ok((h, next))
  {
    PrintedHeader(c, raw, offset, Fields(h));
    AlignmentsAgree(offset, h.nameLen, h.bodyLen);
    ReadAccepts(c, raw, offset, Fields(h), h.name, h.body, next);
  }

  /** One entry read back, whatever surrounds it. */
  lemma EntryRoundTrip(c: Codec, raw: seq<Byte>, offset: nat, h: Header)
    requires Faithful(c) && WellFormed(h) && At(raw, offset, Entry(c, h)) && offset % 4 == 0 && |raw| >= MAGIC_SIZE + HEADER_SIZE
    ensures offset < |raw|
    ensures ReadEntry(c, raw, offset) == Ok((h, offset + |Entry(c, h)|))
  {
    var head, next := HeaderBytes(c, h), offset + |Entry(c, h)|;
    LayoutSize(head, h.name, h.body);
    assert next == offset + HEADER_SIZE + NAlign(h.nameLen) + RoundUp4(h.bodyLen);
    LayoutParts(raw, offset, head, h.name, h.body);
    PartsReadBack(c, raw, offset, h, next);
  }

  lemma TrailerWellFormed()
    ensures WellFormed(TRAILER_HEADER) && IsTrailer(TRAILER_HEADER)
  {
    assert TRAILER_HEADER.name[..10] == TRAILER;
  }

  /** An entry that can be read is the last one exactly when its name is the trailer's or goes on behind it. */
  lemma LastIffTrailer(c: Codec, raw: seq<Byte>, offset: nat)
    requires offset < |raw| && ReadEntry(c, raw, offset).Ok?
    ensures TurnAt(c, raw, offset).Last? <==> !Ordinary(ReadEntry(c, raw, offset).value.0)
  {
  }

  lemma HeaderReadsBack(c: Codec, raw: seq<Byte>, h: Header)
    requires Faithful(c) && WellFormed(h) && Ordinary(h) && |raw| >= MAGIC_SIZE + HEADER_SIZE
    ensures ReadsBack(raw, h => Entry(c, h), Turns(c, raw), h)
  {
    LayoutSize(HeaderBytes(c, h), h.name, h.body);
    forall o: nat | o % 4 == 0 && At(raw, o, Entry(c, h)) ensures TurnAt(c, raw, o) == More(h, o + |Entry(c, h)|) {
      EntryRoundTrip(c, raw, o, h);
    }
  }

  lemma TrailerEndsReading(c: Codec, raw: seq<Byte>)
    requires Faithful(c) && |raw| >= MAGIC_SIZE + HEADER_SIZE
    ensures EndsReading(raw, Entry(c, TRAILER_HEADER), Turns(c, raw))
  {
    var h := TRAILER_HEADER;
    TrailerWellFormed();
    forall o: nat | o % 4 == 0 && At(raw, o, Entry(c, h)) ensures TurnAt(c, raw, o) == Last(o + |Entry(c, h)|) {
      EntryRoundTrip(c, raw, o, h);
    }
  }

  /** Reading an archive that was written from offset 0 gives back its headers, names and
      bodies, and consumes exactly the archive, whatever follows it. */
  lemma RoundTrip(c: Codec, hs: seq<Header>, rest: seq<Byte>)
    requires Faithful(c) && Storable(hs)
    ensures ReadFrom(c, Archive(c, hs) + rest, 0) == Ok((hs, |Archive(c, hs)|))
    ensures |Archive(c, hs)| % 512 == 0 && |Archive(c, hs)| > 0
  {
    var raw := Archive(c, hs) + rest;
    var encode, turn := h => Entry(c, h), Turns(c, raw);
    forall h | h in hs ensures ReadsBack(raw, encode, turn, h) {
      HeaderReadsBack(c, raw, h);
    }
    TrailerEndsReading(c, raw);
    PaddedReadsBack(encode, hs, Entry(c, TRAILER_HEADER), rest, turn);
  }

  /** Every type of file comes back with its body: a regular file (8) or a symbolic link (10) with
      any body, and the types that have none. */
  lemma TypedRoundTrip(c: Codec, h: Header, rest: seq<Byte>)
    requires Faithful(c) && Framed(h) && Ordinary(h)
    requires h.mode / 4096 % 16 == 8 || h.mode / 4096 % 16 == 10 || h.body == []
    ensures ReadFrom(c, Archive(c, [h]) + rest, 0) == Ok(([h], |Archive(c, [h])|))
  {
    RoundTrip(c, [h], rest);
  }

  // ----- the format -----

  lemma {:induction false} FieldAt(c: Codec, fields: seq<nat>, k: nat)
    requires k < |fields|
    ensures At(PrintFields(c, fields), FIELD_SIZE * k, c.digits(fields[k]))
    decreases |fields|
  {
    var n := |fields| - 1;
    if k < n {
      FieldAt(c, fields[..n], k);
    }
  }

  lemma FieldsAt(c: Codec, h: Header)
    ensures forall k | 0 <= k < 13 :: At(Entry(c, h), 6 + 8 * k, c.digits(Fields(h)[k]))
  {
    forall k | 0 <= k < 13 ensures At(Entry(c, h), 6 + 8 * k, c.digits(Fields(h)[k])) {
      FieldAt(c, Fields(h), k);
      AtInside(Entry(c, h), NEWASCII, PrintFields(c, Fields(h)), 8 * k, c.digits(Fields(h)[k]));
    }
  }

  lemma AtInside(raw: seq<Byte>, before: seq<Byte>, middle: seq<Byte>, offset: nat, s: seq<Byte>)
    requires before + middle <= raw && At(middle, offset, s)
    ensures At(raw, |before| + offset, s)
  {
    assert raw[|before|..|before| + |middle|] == middle;
  }

  /** Where each part of an entry stands, and in which order: the magic "070701", thirteen fields of
      eight digits, the name, and the body at the next multiple of four. */
  lemma EntryFormat(c: Codec, h: Header)
    ensures At(Entry(c, h), 0, [48, 55, 48, 55, 48, 49])
    ensures var numbers := [h.ino, h.mode, h.uid, h.gid, h.nlink, h.mtime, h.bodyLen, h.major, h.minor, h.rmajor, h.rminor, h.nameLen, 0];
            forall k | 0 <= k < 13 :: At(Entry(c, h), 6 + 8 * k, c.digits(numbers[k]))
    ensures At(Entry(c, h), 110, h.name)
    ensures At(Entry(c, h), (110 + |h.name| + 3) / 4 * 4, h.body)
  {
    FieldsAt(c, h);
    LayoutParts(Entry(c, h), 0, HeaderBytes(c, h), h.name, h.body);
    AlignmentsAgree(0, |h.name|, 0);
  }
}

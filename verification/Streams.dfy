/** Initrd images: concatenated and nested archives with an optional bootconfig footer
    (utils/initrd-parse.c), and their extraction (utils/initrd-extract/initrd-extract.c). */
module Streams {
  import opened Basics
  import opened Cpio

  datatype Problem = BadArchive(error: Error) | BadData | TooDeep | ConfigTooBig | ConfigBeforeStart | NoInput

  datatype Outcome<+T> = Done(items: seq<T>) | Failed(problem: Problem)

  // ----- loops that take one chunk after another off the front -----

  datatype Chunk<+T> = Took(items: seq<T>, size: nat) | Refused(problem: Problem)

  ghost predicate Progresses<T>(step: seq<Byte> -> Chunk<T>) {
    forall s :: step(s).Took? ==> step(s).size > 0
  }

  function Suffix(s: seq<Byte>, n: nat): seq<Byte> {
    if n >= |s| then [] else s[n..]
  }

  function Before<T>(items: seq<T>, r: Outcome<T>): Outcome<T> {
    match r
    case Done(more) => Done(items + more)
    case Failed(p) => Failed(p)
  }

  function Consume<T>(step: seq<Byte> -> Chunk<T>, s: seq<Byte>): Outcome<T>
    requires Progresses(step)
    decreases |s|
  {
    if s == [] then Done([])
    else match step(s)
         case Refused(p) => Failed(p)
         case Took(items, size) => Before(items, Consume(step, Suffix(s, size)))
  }

  /** The bytes of x are taken in one step, whatever follows them. */
  ghost predicate TakenWhole<S, T>(bytes: S -> seq<Byte>, items: S -> seq<T>, step: seq<Byte> -> Chunk<T>, x: S) {
    bytes(x) != [] && forall rest :: step(bytes(x) + rest) == Took(items(x), |bytes(x)|)
  }

  function Collected<S, T>(items: S -> seq<T>, xs: seq<S>): seq<T> {
    if xs == [] then [] else items(xs[0]) + Collected(items, xs[1..])
  }

  lemma {:induction false} ConsumeReadsBack<S, T>(bytes: S -> seq<Byte>, items: S -> seq<T>, step: seq<Byte> -> Chunk<T>, xs: seq<S>)
    requires Progresses(step) && forall x | x in xs :: TakenWhole(bytes, items, step, x)
    ensures Consume(step, Written(bytes, xs)) == Done(Collected(items, xs))
    decreases |xs|
  {
    if xs != [] {
      var x, rest := xs[0], Written(bytes, xs[1..]);
      var s := bytes(x) + rest;
      assert Suffix(s, |bytes(x)|) == rest;
      assert TakenWhole(bytes, items, step, x) && step(s) == Took(items(x), |bytes(x)|);
      ConsumeReadsBack(bytes, items, step, xs[1..]);
    }
  }

  // ----- compressed data -----

  datatype Format = Gzip | Bzip2 | Xz | Zstd

  /** decompress_method with every library compiled in: lzma, lzo and lz4 are recognised but not supported. */
  function DecompressMethod(s: seq<Byte>): Option<Format> {
    if |s| < 2 then None
    else if s[0] == 0x1f && (s[1] == 0x8b || s[1] == 0x9e) then Some(Gzip)
    else if s[0] == 0x42 && s[1] == 0x5a then Some(Bzip2)
    else if s[0] == 0xfd && s[1] == 0x37 then Some(Xz)
    else if s[0] == 0x28 && s[1] == 0xb5 then Some(Zstd)
    else None
  }

  /** The two bytes that data of a format begins with. */
  predicate StartsAs(f: Format, s: seq<Byte>) {
    |s| >= 2 &&
    match f
    case Gzip => s[..2] == [0x1f, 0x8b] || s[..2] == [0x1f, 0x9e]
    case Bzip2 => s[..2] == [0x42, 0x5a]
    case Xz => s[..2] == [0xfd, 0x37]
    case Zstd => s[..2] == [0x28, 0xb5]
  }

  lemma FirstTwo(s: seq<Byte>)
    requires |s| >= 2
    ensures s[..2] == [s[0], s[1]]
  {
  }

  /** The format is recognised exactly by the two bytes in front, whatever follows. */
  lemma MethodIffMagic(f: Format, s: seq<Byte>, rest: seq<Byte>)
    ensures DecompressMethod(s) == Some(f) <==> StartsAs(f, s)
    ensures StartsAs(f, s) ==> DecompressMethod(s + rest) == Some(f)
  {
    if |s| >= 2 {
      FirstTwo(s);
    }
  }

  /** What a decompressor makes of the front of its input. */
  datatype Unpacked = Unpacked(data: seq<Byte>, size: nat) | Broken

  type Unpack = (Format, seq<Byte>) -> Unpacked

  ghost predicate Eats(unpack: Unpack) {
    forall f, s :: unpack(f, s).Unpacked? ==> unpack(f, s).size > 0
  }

  // ----- images -----

  datatype Found = Headers(headers: seq<Header>) | BootConfig(data: seq<Byte>)

  lemma ReadAdvances(c: Codec, s: seq<Byte>)
    requires s != []
    ensures ReadFrom(c, s, 0).Ok? ==> ReadFrom(c, s, 0).value.1 > 0
  {
    ReadAllAdvances(Turns(c, s), |s|, 0);
  }

  /** One turn of the loop of read_stream (lines 56-94), with depth bounding the nesting. */
  ghost function StreamTurn(c: Codec, unpack: Unpack, depth: nat, s: seq<Byte>): (r: Chunk<Found>)
    requires Eats(unpack)
    ensures r.Took? ==> r.size > 0
    decreases depth
  {
    if s == [] then Refused(NoInput)
    else match DecompressMethod(s)
         case None =>
           ReadAdvances(c, s);
           (match ReadFrom(c, s, 0)
            case Err(e) => Refused(BadArchive(e))
            case Ok((hs, size)) => Took([Headers(hs)], size))
         case Some(f) =>
           match unpack(f, s)
           case Broken => Refused(BadData)
           case Unpacked(data, size) =>
             if depth == 0 then Refused(TooDeep)
             else match Consume(t => StreamTurn(c, unpack, depth - 1, t), data)
                  case Failed(p) => Refused(p)
                  case Done(items) => Took(items, size)
  }

  /** What the loop of read_stream takes at each point of a stream. */
  ghost function Steps(c: Codec, unpack: Unpack, depth: nat): (step: seq<Byte> -> Chunk<Found>)
    requires Eats(unpack)
    ensures Progresses(step)
  {
    s => StreamTurn(c, unpack, depth, s)
  }

  ghost function Reader(c: Codec, unpack: Unpack, depth: nat): seq<Byte> -> Outcome<Found>
    requires Eats(unpack)
  {
    s => Consume(Steps(c, unpack, depth), s)
  }

  /** "#BOOTCONFIG\n". */
  const MAGIC: seq<Byte> := [35, 66, 79, 79, 84, 67, 79, 78, 70, 73, 71, 10]

  /** The first of the windows |raw| - 12 - i, for i from `i` to 3, that holds the magic (lines 41-51). */
  function FindConfig(raw: seq<Byte>, magic: seq<Byte>, i: nat): (r: Option<nat>)
    ensures r.Some? ==> r.value + |magic| <= |raw|
    decreases |raw|, 4 - i
  {
    if i >= 4 then None
    else if |raw| >= |magic| + i && raw[|raw| - |magic| - i..|raw| - i] == magic then Some(|raw| - |magic| - i)
    else FindConfig(raw, magic, i + 1)
  }

  /** le32toh of the first four bytes. */
  function Le32Value(s: seq<Byte>): nat
    requires |s| == 4
  {
    s[0] as nat + 256 * s[1] as nat + 65536 * s[2] as nat + 16777216 * s[3] as nat
  }

  function Le32(n: nat): (s: seq<Byte>)
    ensures |s| == 4
  {
    [n % 256, n / 256 % 256, n / 65536 % 256, n / 16777216 % 256]
  }

  /** Where the bootconfig whose magic stands at p starts, if its size field makes sense (lines 113-126). */
  function ConfigStart(raw: seq<Byte>, p: nat): (r: Outcome<nat>)
    requires p + |MAGIC| <= |raw|
    ensures r.Done? ==> |r.items| == 1 && r.items[0] <= p - 8
  {
    if p < 8 then Failed(ConfigBeforeStart)
    else
      var size := Le32Value(raw[p - 8..p - 4]);
      if size > |raw| then Failed(ConfigTooBig)
      else if size > p - 8 then Failed(ConfigBeforeStart)
      else Done([p - 8 - size])
  }

  /** Take the bootconfig whose magic was found off the end, and read what is before it. */
  function ReadBefore(read: seq<Byte> -> Outcome<Found>, raw: seq<Byte>, window: Option<nat>): Outcome<Found>
    requires window.Some? ==> window.value + |MAGIC| <= |raw|
  {
    match window
    case None => read(raw)
    case Some(p) =>
      match ConfigStart(raw, p)
      case Failed(e) => Failed(e)
      case Done(start) =>
        match read(raw[..start[0]])
        case Failed(e) => Failed(e)
        case Done(items) => Done(items + [BootConfig(raw[start[0]..p - 8])])
  }

  function ReadAround(read: seq<Byte> -> Outcome<Found>, raw: seq<Byte>): Outcome<Found> {
    ReadBefore(read, raw, FindConfig(raw, MAGIC, 0))
  }

  /** read_stream on a whole image (lines 37-128). */
  ghost function ReadImage(c: Codec, unpack: Unpack, depth: nat, raw: seq<Byte>): Outcome<Found>
    requires Eats(unpack)
  {
    ReadAround(Reader(c, unpack, depth), raw)
  }

  // ----- images read back -----

  /** A piece of an image: an archive as written, or compressed data with what it holds. */
  datatype Segment = Plain(headers: seq<Header>) | Packed(format: Format, blob: seq<Byte>, inner: seq<Segment>)

  function SegmentBytes(c: Codec, seg: Segment): seq<Byte> {
    match seg
    case Plain(hs) => Archive(c, hs)
    case Packed(_, blob, _) => blob
  }

  function SegmentItems(seg: Segment): seq<Found>
    decreases seg
  {
    match seg
    case Plain(hs) => [Headers(hs)]
    case Packed(_, _, inner) => AllItems(inner)
  }

  function AllItems(segs: seq<Segment>): seq<Found>
    decreases segs
  {
    if segs == [] then [] else SegmentItems(segs[0]) + AllItems(segs[1..])
  }

  ghost function ImageBytes(c: Codec, segs: seq<Segment>): seq<Byte> {
    Written(seg => SegmentBytes(c, seg), segs)
  }

  /** Archives hold storable headers, and compressed data unpacks to its inner image whatever follows it. */
  ghost predicate Valid(c: Codec, unpack: Unpack, depth: nat, seg: Segment)
    decreases depth
  {
    match seg
    case Plain(hs) => Storable(hs)
    case Packed(f, blob, inner) =>
      && depth > 0
      && StartsAs(f, blob) && (forall rest :: unpack(f, blob + rest) == Unpacked(ImageBytes(c, inner), |blob|))
      && forall x | x in inner :: Valid(c, unpack, depth - 1, x)
  }

  lemma ArchiveStart(c: Codec, hs: seq<Header>)
    ensures |Archive(c, hs)| >= 2 && Archive(c, hs)[0] == 48 && Archive(c, hs)[1] == 55
  {
    var h := if hs == [] then TRAILER_HEADER else hs[0];
    assert |Entry(c, h)| >= 2 && Entry(c, h)[0] == 48 && Entry(c, h)[1] == 55;
  }

  /** An archive is never mistaken for compressed data and is read back whole. */
  lemma PlainTaken(c: Codec, unpack: Unpack, depth: nat, hs: seq<Header>, rest: seq<Byte>)
    requires Faithful(c) && Eats(unpack) && Storable(hs)
    ensures StreamTurn(c, unpack, depth, Archive(c, hs) + rest) == Took([Headers(hs)], |Archive(c, hs)|)
  {
    ArchiveStart(c, hs);
    RoundTrip(c, hs, rest);
  }

  lemma PackedTaken(c: Codec, unpack: Unpack, depth: nat, f: Format, blob: seq<Byte>, inner: seq<Segment>, rest: seq<Byte>)
    requires Faithful(c) && Eats(unpack) && Valid(c, unpack, depth, Packed(f, blob, inner))
    requires Consume(Steps(c, unpack, depth - 1), ImageBytes(c, inner)) == Done(AllItems(inner))
    ensures StreamTurn(c, unpack, depth, blob + rest) == Took(AllItems(inner), |blob|)
  {
    MethodIffMagic(f, blob, rest);
  }

  lemma {:induction false} ItemsCollected(segs: seq<Segment>)
    ensures Collected(SegmentItems, segs) == AllItems(segs)
    decreases |segs|
  {
    if segs != [] {
      ItemsCollected(segs[1..]);
    }
  }

  /** Every image of concatenated archives and nested compressed images is read back, archive by
      archive, in the order of the bytes. */
  lemma {:induction false} ImageReadsBack(c: Codec, unpack: Unpack, depth: nat, segs: seq<Segment>)
    requires Faithful(c) && Eats(unpack) && forall seg | seg in segs :: Valid(c, unpack, depth, seg)
    ensures Consume(Steps(c, unpack, depth), ImageBytes(c, segs)) == Done(AllItems(segs))
    decreases depth
  {
    var bytes, step := seg => SegmentBytes(c, seg), Steps(c, unpack, depth);
    forall seg | seg in segs ensures TakenWhole(bytes, SegmentItems, step, seg) {
      SegmentTaken(c, unpack, depth, seg);
    }
    ConsumeReadsBack(bytes, SegmentItems, step, segs);
    ItemsCollected(segs);
  }

  lemma {:induction false} SegmentTaken(c: Codec, unpack: Unpack, depth: nat, seg: Segment)
    requires Faithful(c) && Eats(unpack) && Valid(c, unpack, depth, seg)
    ensures TakenWhole(x => SegmentBytes(c, x), SegmentItems, Steps(c, unpack, depth), seg)
    decreases depth, 0
  {
    match seg
    case Plain(hs) =>
      forall rest: seq<Byte> ensures StreamTurn(c, unpack, depth, Archive(c, hs) + rest) == Took([Headers(hs)], |Archive(c, hs)|) {
        PlainTaken(c, unpack, depth, hs, rest);
      }
      ArchiveStart(c, hs);
    case Packed(f, blob, inner) =>
      ImageReadsBack(c, unpack, depth - 1, inner);
      forall rest: seq<Byte> ensures StreamTurn(c, unpack, depth, blob + rest) == Took(AllItems(inner), |blob|) {
        PackedTaken(c, unpack, depth, f, blob, inner, rest);
      }
  }

  // ----- the bootconfig footer -----

  lemma DivTwice(n: nat)
    ensures n / 65536 == n / 256 / 256 && n / 16777216 == n / 65536 / 256
  {
  }

  lemma Byte0(n: nat)
    ensures n == 256 * (n / 256) + n % 256
  {
  }

  lemma Le32RoundTrip(n: nat)
    requires n < LIMIT
    ensures Le32Value(Le32(n)) == n
    ensures var s := Le32(n); s[0] as nat + 256 * s[1] as nat + 65536 * s[2] as nat + 16777216 * s[3] as nat == n
  {
    DivTwice(n);
    var a, b, c := n / 256, n / 65536, n / 16777216;
    Byte0(n);
    Byte0(a);
    Byte0(b);
    assert c < 256;
  }

  /** A config, its size, its checksum and the magic, with the boot loader's alignment behind them. */
  ghost function Footer(config: seq<Byte>, checksum: seq<Byte>, pad: nat): seq<Byte> {
    config + (Le32(|config|) + (checksum + (MAGIC + Zeros(pad))))
  }

  lemma {:induction false} MagicFound(raw: seq<Byte>, magic: seq<Byte>, pad: nat, i: nat)
    requires i <= pad <= 3 && |magic| + pad <= |raw| && |magic| > 0 && magic[|magic| - 1] != 0
    requires raw[|raw| - |magic| - pad..|raw| - pad] == magic
    requires forall k | |raw| - pad <= k < |raw| :: raw[k] == 0
    ensures FindConfig(raw, magic, i) == Some(|raw| - |magic| - pad)
    decreases pad - i
  {
    if i < pad {
      NotHere(raw, magic, i);
      MagicFound(raw, magic, pad, i + 1);
    }
  }

  /** A window that ends in a zero does not hold the magic. */
  lemma NotHere(raw: seq<Byte>, magic: seq<Byte>, i: nat)
    requires i < 4 && |magic| + i <= |raw| && |magic| > 0 && magic[|magic| - 1] != 0 && raw[|raw| - i - 1] == 0
    ensures FindConfig(raw, magic, i) == FindConfig(raw, magic, i + 1)
  {
    assert raw[|raw| - |magic| - i..|raw| - i][|magic| - 1] == raw[|raw| - i - 1];
  }

  lemma AtThree(raw: seq<Byte>, at: nat, a: seq<Byte>, b: seq<Byte>, c: seq<Byte>)
    requires At(raw, at, a + (b + c))
    ensures At(raw, at, a) && At(raw, at + |a|, b) && At(raw, at + |a| + |b|, c)
  {
    AtParts(raw, at, a, b + c);
    AtParts(raw, at + |a|, b, c);
  }

  lemma FooterParts(image: seq<Byte>, config: seq<Byte>, size: seq<Byte>, checksum: seq<Byte>, magic: seq<Byte>, pad: nat)
    requires |checksum| == |size| == 4 && |magic| == 12
    ensures var raw, start := image + (config + (size + (checksum + (magic + Zeros(pad))))), |image| + |config|;
            && raw[..|image|] == image && At(raw, |image|, config) && At(raw, start, size)
            && At(raw, start + 8, magic) && |raw| == start + 20 + pad && At(raw, start + 20, Zeros(pad))
  {
    var start, tail := |image| + |config|, magic + Zeros(pad);
    var raw := image + (config + (size + (checksum + tail)));
    assert raw[0..|raw|] == raw;
    AtThree(raw, 0, image, config, size + (checksum + tail));
    AtThree(raw, start, size, checksum, tail);
    AtParts(raw, start + 8, magic, Zeros(pad));
  }

  lemma ZerosBehind(raw: seq<Byte>, at: nat, pad: nat)
    requires At(raw, at, Zeros(pad)) && at + pad == |raw|
    ensures forall k | |raw| - pad <= k < |raw| :: raw[k] == 0
  {
    forall k | at <= k < |raw| ensures raw[k] == 0 {
      assert raw[k] == raw[at..at + pad][k - at];
    }
  }

  lemma ConfigStartFound(raw: seq<Byte>, image: nat, size: nat)
    requires size < LIMIT && image + size + 20 <= |raw| && At(raw, image + size, Le32(size))
    ensures ConfigStart(raw, image + size + 8) == Done([image])
  {
    Le32RoundTrip(size);
  }

  lemma ConfigTaken(read: seq<Byte> -> Outcome<Found>, raw: seq<Byte>, p: nat, image: seq<Byte>, config: seq<Byte>)
    requires read(image).Done? && p == |image| + |config| + 8 && p + |MAGIC| <= |raw|
    requires ConfigStart(raw, p) == Done([|image|])
    requires raw[..|image|] == image && At(raw, |image|, config)
    ensures ReadBefore(read, raw, Some(p)) == Done(read(image).items + [BootConfig(config)])
  {
  }

  lemma FooterFound(read: seq<Byte> -> Outcome<Found>, raw: seq<Byte>, image: seq<Byte>, config: seq<Byte>, pad: nat)
    requires read(image).Done? && pad <= 3 && |config| < LIMIT && |raw| == |image| + |config| + 20 + pad
    requires raw[..|image|] == image && At(raw, |image|, config) && At(raw, |image| + |config|, Le32(|config|))
    requires At(raw, |image| + |config| + 8, MAGIC) && At(raw, |image| + |config| + 20, Zeros(pad))
    ensures ReadAround(read, raw) == Done(read(image).items + [BootConfig(config)])
  {
    ZerosBehind(raw, |raw| - pad, pad);
    MagicFound(raw, MAGIC, pad, 0);
    ConfigStartFound(raw, |image|, |config|);
    ConfigTaken(read, raw, |image| + |config| + 8, image, config);
  }

  lemma FooterTaken(read: seq<Byte> -> Outcome<Found>, image: seq<Byte>, config: seq<Byte>, checksum: seq<Byte>, pad: nat)
    requires read(image).Done? && |checksum| == 4 && pad <= 3 && |config| < LIMIT
    ensures ReadAround(read, image + Footer(config, checksum, pad)) == Done(read(image).items + [BootConfig(config)])
  {
    FooterParts(image, config, Le32(|config|), checksum, MAGIC, pad);
    FooterFound(read, image + Footer(config, checksum, pad), image, config, pad);
  }

  /** A bootconfig behind an image is taken off before the image is read, however the boot loader aligned it. */
  lemma ConfigReadsBack(c: Codec, unpack: Unpack, depth: nat, segs: seq<Segment>, config: seq<Byte>, checksum: seq<Byte>, pad: nat)
    requires Faithful(c) && Eats(unpack) && forall seg | seg in segs :: Valid(c, unpack, depth, seg)
    requires |checksum| == 4 && pad <= 3 && |config| < LIMIT
    ensures ReadImage(c, unpack, depth, ImageBytes(c, segs) + Footer(config, checksum, pad))
         == Done(AllItems(segs) + [BootConfig(config)])
  {
    ImageReadsBack(c, unpack, depth, segs);
    FooterTaken(Reader(c, unpack, depth), ImageBytes(c, segs), config, checksum, pad);
  }

  ghost predicate EndsInZeros(s: seq<Byte>) {
    |s| >= 4 && forall k | |s| - 4 <= k < |s| :: s[k] == 0
  }

  lemma {:induction false} NoMagicFound(raw: seq<Byte>, magic: seq<Byte>, i: nat)
    requires EndsInZeros(raw) && |magic| > 0 && magic[|magic| - 1] != 0
    ensures FindConfig(raw, magic, i) == None
    decreases 4 - i
  {
    if i < 4 {
      if |raw| >= |magic| + i {
        NotHere(raw, magic, i);
      }
      NoMagicFound(raw, magic, i + 1);
    }
  }

  lemma LayoutEnd(head: seq<Byte>)
    ensures EndsInZeros(Layout(head, TRAILER + [0], []))
  {
  }

  lemma ArchiveEnd(c: Codec, hs: seq<Header>)
    ensures EndsInZeros(Archive(c, hs))
  {
    LayoutEnd(HeaderBytes(c, TRAILER_HEADER));
    var s := Written(h => Entry(c, h), hs);
    PaddedEnd(s, Entry(c, TRAILER_HEADER));
  }

  lemma PaddedEnd(s: seq<Byte>, last: seq<Byte>)
    requires EndsInZeros(last)
    ensures EndsInZeros(Padded(s + last))
  {
  }

  lemma {:induction false} WrittenSnoc<T>(encode: T -> seq<Byte>, records: seq<T>, r: T)
    ensures Written(encode, records + [r]) == Written(encode, records) + encode(r)
    decreases |records|
  {
    if records == [] {
      assert records + [r] == [r] && Written(encode, [r]) == encode(r) + Written(encode, []);
    } else {
      assert (records + [r])[1..] == records[1..] + [r];
      WrittenSnoc(encode, records[1..], r);
      assert encode(records[0]) + (Written(encode, records[1..]) + encode(r)) == Written(encode, records) + encode(r);
    }
  }

  /** The padding behind the trailer keeps an image that ends in an archive from looking like a bootconfig. */
  lemma PlainReadsBack(c: Codec, unpack: Unpack, depth: nat, segs: seq<Segment>, hs: seq<Header>)
    requires Faithful(c) && Eats(unpack) && forall seg | seg in segs :: Valid(c, unpack, depth, seg)
    requires segs != [] && segs[|segs| - 1] == Plain(hs)
    ensures ReadImage(c, unpack, depth, ImageBytes(c, segs)) == Done(AllItems(segs))
  {
    var n := |segs| - 1;
    WrittenSnoc(seg => SegmentBytes(c, seg), segs[..n], Plain(hs));
    assert segs[..n] + [Plain(hs)] == segs;
    ArchiveEnd(c, hs);
    NoMagicFound(ImageBytes(c, segs), MAGIC, 0);
    ImageReadsBack(c, unpack, depth, segs);
  }

  lemma WrittenOne<T>(encode: T -> seq<Byte>, r: T)
    ensures Written(encode, [r]) == encode(r)
  {
    WrittenSnoc(encode, [], r);
    assert [] + [r] == [r] && Written(encode, []) + encode(r) == encode(r);
  }

  /** A single archive is read back as itself. */
  lemma ArchiveReadsBack(c: Codec, unpack: Unpack, depth: nat, hs: seq<Header>)
    requires Faithful(c) && Eats(unpack) && Storable(hs)
    ensures ReadImage(c, unpack, depth, Archive(c, hs)) == Done([Headers(hs)])
  {
    var seg := Plain(hs);
    PlainReadsBack(c, unpack, depth, [seg], hs);
    WrittenOne(x => SegmentBytes(c, x), seg);
    assert AllItems([seg]) == [Headers(hs)] + [];
  }
}

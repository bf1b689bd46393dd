/**
 The PNG normaliser: a loop over the chunks of a file that checks each one, keeps the critical ones
 and prints them again. Checksums and decompression are arbitrary functions. The file layout is that
 of RFC 2083, sections 3.1 (signature) and 3.2 (chunk layout).
 */
module Png {
  import opened Wrappers

  type Byte = x: int | 0 <= x < 256
  type Bytes = seq<Byte>
  type Word = x: int | 0 <= x < 0x1_0000_0000

  const SIGNATURE: Bytes := [0x89, 0x50, 0x4E, 0x47, 0x0D, 0x0A, 0x1A, 0x0A]
  const IHDR: Bytes := [0x49, 0x48, 0x44, 0x52]
  const IDAT: Bytes := [0x49, 0x44, 0x41, 0x54]
  const IEND: Bytes := [0x49, 0x45, 0x4E, 0x44]
  const MAX_IMAGE_BYTES := 25 * 1024 * 1024

  datatype Codec = Codec(crc32: Bytes -> Word, decompress: Bytes -> Option<Bytes>)

  datatype PngError =
    | NotPng
    | InvalidChunks
    | InvalidChecksum
    | InvalidHeader
    | Incomplete
    | InvalidDimensions
    | UnsupportedFormat
    | InvalidPixels
    | InvalidPixelLength

  datatype Chunk = Chunk(kind: Bytes, data: Bytes)

  datatype Picture = Picture(content: Bytes, width: Word, height: Word)

  function FromBigEndian(b: Bytes): Word
    requires |b| == 4
  {
    ((b[0] as int * 256 + b[1]) * 256 + b[2]) * 256 + b[3]
  }

  function ToBigEndian(n: Word): (b: Bytes)
    ensures |b| == 4
  {
    [n / 0x100_0000, n / 0x1_0000 % 256, n / 256 % 256, n % 256]
  }

  // ---------- Chunks and files ----------

  function Prefix(b: Bytes, from: nat, length: nat): Bytes
    requires from + length <= |b|
  {
    b[from..from + length]
  }

  predicate IsCritical(c: Chunk) {
    c.kind == IHDR || c.kind == IDAT || c.kind == IEND
  }

  predicate Fits(c: Chunk) {
    |c.kind| == 4 && |c.data| <= MAX_IMAGE_BYTES
  }

  function EncodeChunk(k: Codec, c: Chunk): Bytes
    requires Fits(c)
  {
    ToBigEndian(|c.data|) + c.kind + c.data + ToBigEndian(k.crc32(c.kind + c.data))
  }

  function EncodeAll(k: Codec, cs: seq<Chunk>): Bytes
    requires forall c | c in cs :: Fits(c)
  {
    if cs == [] then [] else EncodeChunk(k, cs[0]) + EncodeAll(k, cs[1..])
  }

  function EncodeFile(k: Codec, cs: seq<Chunk>): Bytes
    requires forall c | c in cs :: Fits(c)
  {
    SIGNATURE + EncodeAll(k, cs)
  }

  /** A header comes before every other critical chunk and has 13 bytes; the end chunk comes last. */
  predicate Shaped(cs: seq<Chunk>, seenCritical: bool) {
    && cs != []
    && Fits(cs[0])
    && (cs[0].kind == IHDR ==> !seenCritical && |cs[0].data| == 13)
    && (if cs[0].kind == IEND then |cs| == 1 else Shaped(cs[1..], seenCritical || IsCritical(cs[0])))
  }

  function Critical(cs: seq<Chunk>): seq<Chunk> {
    if cs == [] then [] else (if IsCritical(cs[0]) then [cs[0]] else []) + Critical(cs[1..])
  }

  /** The image data: the contents of the IDAT chunks, in order. */
  function ImageData(cs: seq<Chunk>): Bytes {
    if cs == [] then [] else (if cs[0].kind == IDAT then cs[0].data else []) + ImageData(cs[1..])
  }

  datatype Header = Header(width: Word, height: Word, bitDepth: int, colorType: int, interlace: int)

  const NO_HEADER := Header(0, 0, -1, -1, -1)

  function ParseHeader(data: Bytes): Header
    requires |data| == 13
  {
    Header(FromBigEndian(data[..4]), FromBigEndian(data[4..8]), data[8], data[9], data[12])
  }

  /** The values read from the last header seen. */
  function HeaderOf(cs: seq<Chunk>, before: Header): Header {
    if cs == [] then before
    else HeaderOf(cs[1..], if cs[0].kind == IHDR && |cs[0].data| == 13 then ParseHeader(cs[0].data) else before)
  }

  function Channels(colorType: int): Option<nat> {
    if colorType == 0 then Some(1) else if colorType == 2 then Some(3)
    else if colorType == 4 then Some(2) else if colorType == 6 then Some(4) else None
  }

  /** The checks that follow the scan. */
  function CheckImage(k: Codec, h: Header, data: Bytes): Option<PngError> {
    if data == [] then Some(Incomplete)
    else if !(1 <= h.width <= 16384 && 1 <= h.height <= 16384) then Some(InvalidDimensions)
    else if Channels(h.colorType).None? || h.bitDepth != 8 || h.interlace != 0 then Some(UnsupportedFormat)
    else
      var pixels := k.decompress(data);
      if pixels.None? then Some(InvalidPixels)
      else if |pixels.value| != h.height * (1 + h.width * Channels(h.colorType).value) then Some(InvalidPixelLength)
      else None
  }

  /** The chunk lists that make an acceptable picture. */
  predicate Accepted(k: Codec, cs: seq<Chunk>) {
    Shaped(cs, false) && CheckImage(k, HeaderOf(cs, NO_HEADER), ImageData(cs)).None?
  }

  // ---------- The normaliser as a function ----------

  /** The chunk at an offset, with its length and its checksum checked. */
  function ReadChunk(k: Codec, content: Bytes, offset: nat): (r: Result<Chunk, PngError>)
    requires offset + 12 <= |content|
    ensures r.Success? ==> Fits(r.value) && offset + 12 + |r.value.data| <= |content|
  {
    var length := FromBigEndian(Prefix(content, offset, 4));
    if length > MAX_IMAGE_BYTES || offset + 12 + length > |content| then Failure(InvalidChunks)
    else
      var c := Chunk(Prefix(content, offset + 4, 4), Prefix(content, offset + 8, length));
      if k.crc32(c.kind + c.data) != FromBigEndian(Prefix(content, offset + 8 + length, 4)) then Failure(InvalidChecksum)
      else Success(c)
  }

  predicate MisplacedHeader(c: Chunk, seenCritical: bool) {
    c.kind == IHDR && (seenCritical || |c.data| != 13)
  }

  function Before(cs: seq<Chunk>, r: Result<seq<Chunk>, PngError>): Result<seq<Chunk>, PngError> {
    match r
    case Success(rest) => Success(cs + rest)
    case Failure(e) => Failure(e)
  }

  /** The chunks from an offset up to the end chunk, which must end the file. */
  function Scan(k: Codec, content: Bytes, offset: nat, seenCritical: bool): Result<seq<Chunk>, PngError>
    requires offset <= |content|
    decreases |content| - offset
  {
    if offset + 12 > |content| then Failure(Incomplete)
    else
      match ReadChunk(k, content, offset)
      case Failure(e) => Failure(e)
      case Success(c) =>
        var end := offset + 12 + |c.data|;
        if MisplacedHeader(c, seenCritical) then Failure(InvalidHeader)
        else if c.kind == IEND then
          if end == |content| then Success([c]) else Failure(Incomplete)
        else Before([c], Scan(k, content, end, seenCritical || IsCritical(c)))
  }

  lemma CriticalFits(cs: seq<Chunk>)
    requires forall c | c in cs :: Fits(c)
    ensures forall c | c in Critical(cs) :: Fits(c)
  {
  }

  function Finish(k: Codec, cs: seq<Chunk>): Result<Picture, PngError>
    requires forall c | c in cs :: Fits(c)
  {
    var h := HeaderOf(cs, NO_HEADER);
    var error := CheckImage(k, h, ImageData(cs));
    if error.Some? then Failure(error.value)
    else
      CriticalFits(cs);
      Success(Picture(EncodeFile(k, Critical(cs)), h.width, h.height))
  }

  lemma ScanFits(k: Codec, content: Bytes, offset: nat, seenCritical: bool)
    requires offset <= |content|
    ensures var r := Scan(k, content, offset, seenCritical);
            r.Success? ==> forall c | c in r.value :: Fits(c)
    decreases |content| - offset
  {
  }

  function Normalize(k: Codec, content: Bytes): Result<Picture, PngError> {
    if |content| < 45 || content[..8] != SIGNATURE then Failure(NotPng)
    else match Scan(k, content, 8, false)
      case Failure(e) => Failure(e)
      case Success(cs) =>
        ScanFits(k, content, 8, false);
        Finish(k, cs)
  }

  // ---------- The normaliser as the loop it is ----------

  lemma {:induction false} CriticalAppend(cs: seq<Chunk>, c: Chunk)
    ensures Critical(cs + [c]) == Critical(cs) + (if IsCritical(c) then [c] else [])
  {
    if cs != [] {
      assert (cs + [c])[1..] == cs[1..] + [c];
      CriticalAppend(cs[1..], c);
    }
  }

  lemma {:induction false} ImageDataAppend(cs: seq<Chunk>, c: Chunk)
    ensures ImageData(cs + [c]) == ImageData(cs) + (if c.kind == IDAT then c.data else [])
  {
    if cs != [] {
      assert (cs + [c])[1..] == cs[1..] + [c];
      ImageDataAppend(cs[1..], c);
    }
  }

  lemma {:induction false} HeaderAppend(cs: seq<Chunk>, c: Chunk, before: Header)
    ensures HeaderOf(cs + [c], before) ==
              if c.kind == IHDR && |c.data| == 13 then ParseHeader(c.data) else HeaderOf(cs, before)
  {
    if cs != [] {
      assert (cs + [c])[1..] == cs[1..] + [c];
      HeaderAppend(cs[1..], c, if cs[0].kind == IHDR && |cs[0].data| == 13 then ParseHeader(cs[0].data) else before);
    }
  }

  lemma {:induction false} EncodeAppend(k: Codec, cs: seq<Chunk>, c: Chunk)
    requires Fits(c) && forall x | x in cs :: Fits(x)
    ensures EncodeAll(k, cs + [c]) == EncodeAll(k, cs) + EncodeChunk(k, c)
  {
    if cs == [] {
      assert [c][1..] == [];
    } else {
      assert (cs + [c])[1..] == cs[1..] + [c];
      EncodeAppend(k, cs[1..], c);
    }
  }

  method EncodeChunks(k: Codec, critical: seq<Chunk>) returns (normalized: Bytes)
    requires forall c | c in critical :: Fits(c)
    ensures normalized == EncodeFile(k, critical)
  {
    normalized := SIGNATURE;
    for i := 0 to |critical|
      invariant normalized == EncodeFile(k, critical[..i])
    {
      var c := critical[i];
      assert Fits(c);
      normalized := normalized + ToBigEndian(|c.data|);
      normalized := normalized + c.kind;
      normalized := normalized + c.data;
      normalized := normalized + ToBigEndian(k.crc32(c.kind + c.data));
      assert critical[..i + 1] == critical[..i] + [c];
      EncodeAppend(k, critical[..i], c);
    }
    assert critical[..|critical|] == critical;
  }

  /** What the loop knows of the chunks it has read. */
  ghost predicate Collected(read: seq<Chunk>, critical: seq<Chunk>, idat: Bytes, header: Header) {
    && (forall c | c in read :: Fits(c))
    && critical == Critical(read) && idat == ImageData(read) && header == HeaderOf(read, NO_HEADER)
  }

  lemma CollectOne(read: seq<Chunk>, critical: seq<Chunk>, idat: Bytes, header: Header, c: Chunk)
    requires Collected(read, critical, idat, header) && Fits(c)
    ensures Collected(read + [c], critical + (if IsCritical(c) then [c] else []),
                      idat + (if c.kind == IDAT then c.data else []),
                      if c.kind == IHDR && |c.data| == 13 then ParseHeader(c.data) else header)
  {
    CriticalAppend(read, c);
    ImageDataAppend(read, c);
    HeaderAppend(read, c, NO_HEADER);
  }

  lemma BeforeNothing(r: Result<seq<Chunk>, PngError>)
    ensures Before([], r) == r
  {
    if r.Success? {
      assert [] + r.value == r.value;
    }
  }

  lemma BeforeTwice(first: seq<Chunk>, c: Chunk, r: Result<seq<Chunk>, PngError>)
    ensures Before(first, Before([c], r)) == Before(first + [c], r)
  {
    if r.Success? {
      assert first + ([c] + r.value) == first + [c] + r.value;
    }
  }

  /** One turn of the scan, as the loop takes it. */
  lemma ScanStep(k: Codec, content: Bytes, offset: nat, read: seq<Chunk>, seenCritical: bool)
    requires offset + 12 <= |content|
    ensures var scan := Before(read, Scan(k, content, offset, seenCritical));
            match ReadChunk(k, content, offset)
            case Failure(e) => scan == Failure(e)
            case Success(c) =>
              var end := offset + 12 + |c.data|;
              if MisplacedHeader(c, seenCritical) then scan == Failure(InvalidHeader)
              else if c.kind == IEND then scan == (if end == |content| then Success(read + [c]) else Failure(Incomplete))
              else scan == Before(read + [c], Scan(k, content, end, seenCritical || IsCritical(c)))
  {
    var r := ReadChunk(k, content, offset);
    if r.Success? && offset + 12 + |r.value.data| <= |content| {
      BeforeTwice(read, r.value, Scan(k, content, offset + 12 + |r.value.data|, seenCritical || IsCritical(r.value)));
    }
  }

  method ReadChunkAt(k: Codec, content: Bytes, offset: nat) returns (r: Result<Chunk, PngError>)
    requires offset + 12 <= |content|
    ensures r == ReadChunk(k, content, offset)
  {
    var length := FromBigEndian(content[offset..offset + 4]);
    var kind := content[offset + 4..offset + 8];
    var end := offset + 12 + length;
    if length > MAX_IMAGE_BYTES || end > |content| {
      return Failure(InvalidChunks);
    }
    var data := content[offset + 8..offset + 8 + length];
    var expected := FromBigEndian(content[offset + 8 + length..end]);
    if k.crc32(kind + data) != expected {
      return Failure(InvalidChecksum);
    }
    return Success(Chunk(kind, data));
  }

  lemma ScanEndsIncomplete(k: Codec, content: Bytes, offset: nat, read: seq<Chunk>, seenCritical: bool)
    requires offset <= |content|
    ensures offset + 12 > |content| ==> Before(read, Scan(k, content, offset, seenCritical)) == Failure(Incomplete)
  {
  }

  method ReadCritical(k: Codec, content: Bytes)
      returns (error: Option<PngError>, critical: seq<Chunk>, idat: Bytes, header: Header)
    requires |content| >= 8
    ensures match Scan(k, content, 8, false)
            case Failure(e) => error == Some(e)
            case Success(cs) => error.None? && Collected(cs, critical, idat, header)
  {
    hide ReadChunk, Scan, ParseHeader, Fits;
    var offset := 8;
    critical, idat, header := [], [], NO_HEADER;
    var seenIend := false;
    ghost var read: seq<Chunk> := [];
    ghost var whole := Scan(k, content, 8, false);
    BeforeNothing(whole);
    while offset + 12 <= |content| && !seenIend
      invariant 8 <= offset <= |content|
      invariant Collected(read, critical, idat, header)
      invariant if seenIend then whole == (if offset == |content| then Success(read) else Failure(Incomplete))
                else whole == Before(read, Scan(k, content, offset, critical != []))
      decreases |content| - offset
    {
      ScanStep(k, content, offset, read, critical != []);
      var chunk := ReadChunkAt(k, content, offset);
      if chunk.Failure? {
        return Some(chunk.error), critical, idat, header;
      }
      var c := chunk.value;
      CollectOne(read, critical, idat, header, c);
      if c.kind == IHDR {
        if critical != [] || |c.data| != 13 {
          return Some(InvalidHeader), critical, idat, header;
        }
        header := ParseHeader(c.data);
        critical := critical + [c];
      } else if c.kind == IDAT {
        idat := idat + c.data;
        critical := critical + [c];
      } else if c.kind == IEND {
        critical := critical + [c];
        seenIend := true;
      }
      read := read + [c];
      offset := offset + 12 + |c.data|;
    }
    if seenIend && offset == |content| {
      return None, critical, idat, header;
    }
    ScanEndsIncomplete(k, content, offset, read, critical != []);
    return Some(Incomplete), critical, idat, header;
  }

  method NormalizePng(k: Codec, content: Bytes) returns (r: Result<Picture, PngError>)
    ensures r == Normalize(k, content)
  {
    hide CheckImage, Scan;
    if |content| < 45 || content[..8] != SIGNATURE {
      return Failure(NotPng);
    }
    ScanFits(k, content, 8, false);
    var error, critical, idat, header := ReadCritical(k, content);
    if error.Some? {
      return Failure(error.value);
    }
    error := CheckImage(k, header, idat);
    if error.Some? {
      return Failure(error.value);
    }
    CriticalFits(Scan(k, content, 8, false).value);
    var normalized := EncodeChunks(k, critical);
    return Success(Picture(normalized, header.width, header.height));
  }
}

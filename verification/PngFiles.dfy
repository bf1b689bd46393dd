/**
 What the normaliser makes of files given byte by byte: which pictures it accepts and with which dimensions,
 and which error the first damaged chunk is reported as.
 */
module PngFiles {
  import opened Wrappers
  import opened Png
  import opened PngRoundTrip

  /** Four bytes, the most significant first. */
  function Number(b: Bytes): int
    requires |b| == 4
  {
    b[0] as int * 0x100_0000 + b[1] as int * 0x1_0000 + b[2] as int * 0x100 + b[3] as int
  }

  /** The layout of a chunk: the length of its data, its type, its data, and the checksum of type and data. */
  predicate IsChunk(k: Codec, bytes: Bytes, kind: Bytes, data: Bytes) {
    && |kind| == 4 && |bytes| == 12 + |data|
    && Number(bytes[..4]) == |data| && bytes[4..8] == kind && bytes[8..8 + |data|] == data
    && Number(bytes[8 + |data|..]) == k.crc32(kind + data)
  }

  lemma NumberIsBigEndian(b: Bytes)
    requires |b| == 4
    ensures Number(b) == FromBigEndian(b)
  {
  }

  lemma ChunkIsEncoded(k: Codec, bytes: Bytes, kind: Bytes, data: Bytes)
    requires IsChunk(k, bytes, kind, data) && |data| <= MAX_IMAGE_BYTES
    ensures bytes == EncodeChunk(k, Chunk(kind, data))
  {
    var length, crc := bytes[..4], bytes[8 + |data|..];
    NumberIsBigEndian(length);
    NumberIsBigEndian(crc);
    BigEndianIsInjective(length);
    BigEndianIsInjective(crc);
    assert bytes == length + bytes[4..8] + bytes[8..8 + |data|] + crc;
  }

  // ---------- A picture with nothing but its critical chunks ----------

  /** The bytes of image data chunks that hold the given parts. */
  predicate AreDataChunks(k: Codec, bytes: Bytes, parts: seq<Bytes>) {
    if parts == [] then bytes == []
    else
      && |parts[0]| <= 25 * 1024 * 1024 && |bytes| >= 12 + |parts[0]|
      && IsChunk(k, bytes[..12 + |parts[0]|], [0x49, 0x44, 0x41, 0x54], parts[0])
      && AreDataChunks(k, bytes[12 + |parts[0]|..], parts[1..])
  }

  function Flat(parts: seq<Bytes>): Bytes {
    if parts == [] then [] else parts[0] + Flat(parts[1..])
  }

  function DataChunks(parts: seq<Bytes>): seq<Chunk> {
    seq(|parts|, i requires 0 <= i < |parts| => Chunk(IDAT, parts[i]))
  }

  lemma DataChunksSplit(parts: seq<Bytes>)
    requires parts != []
    ensures DataChunks(parts) == [Chunk(IDAT, parts[0])] + DataChunks(parts[1..])
  {
  }

  /** A list that may follow a header and holds the image data. */
  ghost predicate Continues(cs: seq<Chunk>, data: Bytes) {
    Shaped(cs, true) && Critical(cs) == cs && ImageData(cs) == data && forall h :: HeaderOf(cs, h) == h
  }

  lemma EndContinues(end: Chunk)
    requires Fits(end) && end.kind == IEND
    ensures Continues([end], [])
  {
    assert [end][1..] == [];
  }

  lemma DataContinues(part: Bytes, cs: seq<Chunk>, data: Bytes)
    requires |part| <= 25 * 1024 * 1024 && Continues(cs, data)
    ensures Continues([Chunk(IDAT, part)] + cs, part + data)
  {
    var first := Chunk(IDAT, part);
    assert ([first] + cs)[1..] == cs;
  }

  lemma {:induction false} DataChunksAreEncoded(k: Codec, bytes: Bytes, parts: seq<Bytes>, end: Chunk)
    requires AreDataChunks(k, bytes, parts) && Fits(end) && end.kind == IEND
    ensures var cs := DataChunks(parts) + [end];
            && Continues(cs, Flat(parts)) && (forall c | c in cs :: Fits(c))
            && EncodeAll(k, cs) == bytes + EncodeChunk(k, end)
    decreases |parts|
  {
    hide EncodeChunk, IsChunk, Continues;
    if parts == [] {
      assert DataChunks(parts) + [end] == [end] && [end][1..] == [];
      EndContinues(end);
      assert EncodeAll(k, [end]) == EncodeChunk(k, end) + [];
    } else {
      var n := 12 + |parts[0]|;
      var first, rest := Chunk(IDAT, parts[0]), DataChunks(parts[1..]) + [end];
      DataChunksAreEncoded(k, bytes[n..], parts[1..], end);
      ChunkIsEncoded(k, bytes[..n], IDAT, parts[0]);
      DataChunksSplit(parts);
      DataContinues(parts[0], rest, Flat(parts[1..]));
      assert DataChunks(parts) + [end] == [first] + rest && ([first] + rest)[1..] == rest;
      assert bytes == bytes[..n] + bytes[n..];
    }
  }

  /** The 13 bytes of a header. */
  function HeaderData(width: Bytes, height: Bytes, format: seq<Byte>): Bytes {
    width + height + format
  }

  lemma HeaderIsParsed(width: Bytes, height: Bytes, format: seq<Byte>)
    requires |width| == |height| == 4 && |format| == 5
    ensures |HeaderData(width, height, format)| == 13
    ensures ParseHeader(HeaderData(width, height, format))
         == Header(Number(width), Number(height), format[0], format[1], format[4])
  {
    var data := HeaderData(width, height, format);
    assert data[..4] == width && data[4..8] == height;
    NumberIsBigEndian(width);
    NumberIsBigEndian(height);
  }

  /** What is made of a header with these numbers and image data. */
  function Verdict(k: Codec, content: Bytes, w: Word, h: Word, format: seq<Byte>, data: Bytes): Result<Picture, PngError>
    requires |format| == 5
  {
    var samples := map[0 := 1, 2 := 3, 4 := 2, 6 := 4];
    if data == [] then Failure(Incomplete)
    else if w < 1 || w > 16384 || h < 1 || h > 16384 then Failure(InvalidDimensions)
    else if format[0] != 8 || format[1] !in samples || format[4] != 0 then Failure(UnsupportedFormat)
    else match k.decompress(data)
      case None => Failure(InvalidPixels)
      case Some(pixels) =>
        if |pixels| == h + h * w * samples[format[1]] then Success(Picture(content, w, h)) else Failure(InvalidPixelLength)
  }

  lemma PixelCount(h: int, w: int, channels: int)
    ensures h * (1 + w * channels) == h + h * w * channels
  {
    assert h * (w * channels) == h * w * channels;
  }

  lemma VerdictIsCheck(k: Codec, content: Bytes, w: Word, h: Word, format: seq<Byte>, data: Bytes)
    requires |format| == 5
    ensures var error := CheckImage(k, Header(w, h, format[0], format[1], format[4]), data);
            var verdict := if error.Some? then Failure(error.value) else Success(Picture(content, w, h));
            Verdict(k, content, w, h, format, data) == verdict
  {
    PixelCount(h, w, 1);
    PixelCount(h, w, 2);
    PixelCount(h, w, 3);
    PixelCount(h, w, 4);
  }

  /**
   A file of a header, image data in any number of chunks, and an end chunk. It is accepted, unchanged and with the
   dimensions its header spells out, if and only if the format is 8-bit without interlacing in one of four colour types and the
   data inflates to one filter byte and the samples of each row; otherwise the first thing that is wrong is reported.
   */
  lemma PictureIsDecided(k: Codec, header: Bytes, width: Bytes, height: Bytes, format: seq<Byte>,
                         body: Bytes, parts: seq<Bytes>, end: Bytes)
    requires |width| == |height| == 4 && |format| == 5
    requires IsChunk(k, header, [0x49, 0x48, 0x44, 0x52], width + height + format)
    requires AreDataChunks(k, body, parts)
    requires IsChunk(k, end, [0x49, 0x45, 0x4E, 0x44], [])
    ensures var content := [0x89, 0x50, 0x4E, 0x47, 0x0D, 0x0A, 0x1A, 0x0A] + header + body + end;
            Normalize(k, content) == Verdict(k, content, Number(width), Number(height), format, Flat(parts))
  {
    hide IsChunk, EncodeChunk, CheckImage, Verdict, ParseHeader, AreDataChunks;
    HeaderIsParsed(width, height, format);
    var first, last := Chunk(IHDR, HeaderData(width, height, format)), Chunk(IEND, []);
    ChunkIsEncoded(k, header, IHDR, first.data);
    ChunkIsEncoded(k, end, IEND, []);
    DataChunksAreEncoded(k, body, parts, last);
    var rest := DataChunks(parts) + [last];
    var cs := [first] + rest;
    assert cs[1..] == rest;
    assert Shaped(cs, false);
    ShapedFits(cs, false);
    var content := [0x89, 0x50, 0x4E, 0x47, 0x0D, 0x0A, 0x1A, 0x0A] + header + body + end;
    assert EncodeAll(k, cs) == header + (body + end);
    assert content == SIGNATURE + EncodeAll(k, cs) == EncodeFile(k, cs);
    ScanEncoded(k, SIGNATURE, cs, false);
    ChunkLength(k, first);
    ChunkLength(k, last);
    assert content[..8] == SIGNATURE;
    assert Critical(cs) == cs && ImageData(cs) == [] + Flat(parts);
    assert [] + Flat(parts) == Flat(parts);
    assert HeaderOf(cs, NO_HEADER) == ParseHeader(first.data);
    VerdictIsCheck(k, content, Number(width), Number(height), format, Flat(parts));
  }

  // ---------- Files with other chunks ----------

  /** What is kept of a list is kept piece by piece, in order, ... */
  lemma {:induction false} CriticalSplits(first: seq<Chunk>, second: seq<Chunk>)
    ensures Critical(first + second) == Critical(first) + Critical(second)
  {
    if first == [] {
      assert first + second == second;
    } else {
      assert (first + second)[1..] == first[1..] + second;
      CriticalSplits(first[1..], second);
    }
  }

  /** ... and of one chunk exactly the header, image data and the end. */
  lemma ThreeKindsAreKept(c: Chunk)
    ensures Critical([c]) == if c.kind == [0x49, 0x48, 0x44, 0x52] || c.kind == [0x49, 0x44, 0x41, 0x54]
                                || c.kind == [0x49, 0x45, 0x4E, 0x44] then [c] else []
  {
  }

  lemma {:induction false} ShapedAround(first: seq<Chunk>, other: Chunk, second: seq<Chunk>, seenCritical: bool)
    requires Shaped(first + second, seenCritical) && second != [] && Fits(other) && !IsCritical(other)
    ensures Shaped(first + [other] + second, seenCritical)
    decreases |first|
  {
    var with := first + [other] + second;
    if first == [] {
      assert first + second == second && with[1..] == second;
    } else {
      assert (first + second)[1..] == first[1..] + second;
      assert with[1..] == first[1..] + [other] + second;
      ShapedAround(first[1..], other, second, seenCritical || IsCritical(first[0]));
    }
  }

  lemma {:induction false} HeaderAround(first: seq<Chunk>, other: Chunk, second: seq<Chunk>, before: Header)
    requires !IsCritical(other)
    ensures HeaderOf(first + [other] + second, before) == HeaderOf(first + second, before)
    ensures ImageData(first + [other] + second) == ImageData(first + second)
    decreases |first|
  {
    var with := first + [other] + second;
    if first == [] {
      assert first + second == second && with[1..] == second;
    } else {
      assert (first + second)[1..] == first[1..] + second;
      assert with[1..] == first[1..] + [other] + second;
      HeaderAround(first[1..], other, second,
                   if first[0].kind == IHDR && |first[0].data| == 13 then ParseHeader(first[0].data) else before);
    }
  }

  /** Putting a chunk of any other kind anywhere into an accepted file changes nothing about the outcome. */
  lemma OtherChunksAreDropped(k: Codec, first: seq<Chunk>, other: Chunk, second: seq<Chunk>)
    requires Accepted(k, first + second) && second != [] && Fits(other)
    requires other.kind != [0x49, 0x48, 0x44, 0x52] && other.kind != [0x49, 0x44, 0x41, 0x54] && other.kind != [0x49, 0x45, 0x4E, 0x44]
    ensures (forall c | c in first + second :: Fits(c)) && (forall c | c in first + [other] + second :: Fits(c))
    ensures Normalize(k, EncodeFile(k, first + [other] + second)) == Normalize(k, EncodeFile(k, first + second))
  {
    var with, without := first + [other] + second, first + second;
    ShapedAround(first, other, second, false);
    HeaderAround(first, other, second, NO_HEADER);
    CriticalSplits(first, second);
    CriticalSplits(first + [other], second);
    CriticalSplits(first, [other]);
    ThreeKindsAreKept(other);
    assert Critical(with) == Critical(without);
    assert Accepted(k, with);
    NormalizeUndoesEncoding(k, with);
    NormalizeUndoesEncoding(k, without);
  }

  // ---------- Damage ----------

  lemma BeforeMore(c: Chunk, cs: seq<Chunk>, r: Result<seq<Chunk>, PngError>)
    ensures Before([c], Before(cs, r)) == Before([c] + cs, r)
  {
    if r.Success? {
      assert [c] + (cs + r.value) == [c] + cs + r.value;
    }
  }

  /** Chunks that may start a file are scanned whatever follows them. */
  lemma {:induction false} ScanPasses(k: Codec, before: Bytes, cs: seq<Chunk>, rest: Bytes, seenCritical: bool)
    requires Shaped(cs + [Chunk(IEND, [])], seenCritical) && forall c | c in cs :: Fits(c)
    ensures var content, at := before + EncodeAll(k, cs) + rest, |before + EncodeAll(k, cs)|;
            var whole := Scan(k, content, |before|, seenCritical);
            whole == Before(cs, Scan(k, content, at, seenCritical || Critical(cs) != []))
    decreases |cs|
  {
    hide ReadChunk, EncodeChunk;
    var content := before + EncodeAll(k, cs) + rest;
    if cs == [] {
      BeforeNothing(Scan(k, content, |before|, seenCritical));
    } else {
      var c, more := cs[0], cs[1..];
      assert (cs + [Chunk(IEND, [])])[1..] == more + [Chunk(IEND, [])];
      ReadEncoded(k, before, c, EncodeAll(k, more) + rest);
      ChunkLength(k, c);
      var next := before + EncodeChunk(k, c);
      assert content == before + (EncodeChunk(k, c) + (EncodeAll(k, more) + rest));
      assert content == next + EncodeAll(k, more) + rest;
      assert next + EncodeAll(k, more) == before + EncodeAll(k, cs);
      ScanPasses(k, next, more, rest, seenCritical || IsCritical(c));
      var tail := Scan(k, content, |before + EncodeAll(k, cs)|, seenCritical || Critical(cs) != []);
      BeforeMore(c, more, tail);
      assert [c] + more == cs;
    }
  }

  /** What is wrong with the next bytes of a file, if anything ends the scan there. */
  function Damage(k: Codec, rest: Bytes, first: bool): Option<PngError> {
    if |rest| < 12 then Some(Incomplete)
    else
      var length := Number(rest[..4]);
      if length > 26214400 || 12 + length > |rest| then Some(InvalidChunks)
      else
        var kind, data := rest[4..8], rest[8..8 + length];
        if Number(rest[8 + length..12 + length]) != k.crc32(kind + data) then Some(InvalidChecksum)
        else if kind == [0x49, 0x48, 0x44, 0x52] && (!first || length != 13) then Some(InvalidHeader)
        else if kind == [0x49, 0x45, 0x4E, 0x44] && 12 + length < |rest| then Some(Incomplete)
        else None
  }

  lemma DamageStopsTheScan(k: Codec, before: Bytes, rest: Bytes, seenCritical: bool)
    requires Damage(k, rest, !seenCritical).Some?
    ensures Scan(k, before + rest, |before|, seenCritical) == Failure(Damage(k, rest, !seenCritical).value)
  {
    var content := before + rest;
    if |rest| >= 12 {
      var length := Number(rest[..4]);
      assert Prefix(content, |before|, 4) == rest[..4];
      NumberIsBigEndian(rest[..4]);
      if length <= 26214400 && 12 + length <= |rest| {
        assert Prefix(content, |before| + 4, 4) == rest[4..8];
        assert Prefix(content, |before| + 8, length) == rest[8..8 + length];
        assert Prefix(content, |before| + 8 + length, 4) == rest[8 + length..12 + length];
        NumberIsBigEndian(rest[8 + length..12 + length]);
      }
    }
  }

  /**
   After chunks that may start a file, the first thing that is wrong is what is reported: a truncated chunk, a length
   that is too large, a wrong checksum, a header that is not first among the critical chunks or has not 13 bytes, and
   anything after the end.
   */
  lemma DamageIsReported(k: Codec, cs: seq<Chunk>, rest: Bytes)
    requires (forall c | c in cs :: Fits(c)) && Shaped(cs + [Chunk(IEND, [])], false)
    requires Damage(k, rest, Critical(cs) == []).Some?
    ensures var content := [0x89, 0x50, 0x4E, 0x47, 0x0D, 0x0A, 0x1A, 0x0A] + EncodeAll(k, cs) + rest;
            |content| >= 45 ==> Normalize(k, content) == Failure(Damage(k, rest, Critical(cs) == []).value)
  {
    hide Damage;
    var front := SIGNATURE + EncodeAll(k, cs);
    ScanPasses(k, SIGNATURE, cs, rest, false);
    DamageStopsTheScan(k, front, rest, Critical(cs) != []);
    assert (front + rest)[..8] == SIGNATURE;
  }

  lemma ChunkErrors(k: Codec, content: Bytes, offset: nat)
    requires offset + 12 <= |content|
    ensures ReadChunk(k, content, offset) != Failure(NotPng)
  {
  }

  lemma {:induction false} ScanErrors(k: Codec, content: Bytes, offset: nat, seenCritical: bool)
    requires offset <= |content|
    ensures Scan(k, content, offset, seenCritical) != Failure(NotPng)
    decreases |content| - offset
  {
    hide ReadChunk, MisplacedHeader, IsCritical;
    if offset + 12 <= |content| {
      ChunkErrors(k, content, offset);
      if ReadChunk(k, content, offset).Success? {
        var c := ReadChunk(k, content, offset).value;
        ScanErrors(k, content, offset + 12 + |c.data|, seenCritical || IsCritical(c));
      }
    }
  }

  /** Only a file that is too short or has another signature is taken for something else than a picture. */
  lemma NotPngIsTheSignature(k: Codec, content: Bytes)
    ensures Normalize(k, content) == Failure(NotPng) <==>
              |content| < 45 || content[..8] != [0x89, 0x50, 0x4E, 0x47, 0x0D, 0x0A, 0x1A, 0x0A]
  {
    if |content| >= 45 && content[..8] == SIGNATURE {
      ScanErrors(k, content, 8, false);
    }
  }
}

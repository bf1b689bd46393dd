/** Normalising undoes encoding, accepts nothing else, and settles after one pass. */
module PngRoundTrip {
  import opened Wrappers
  import opened Png

  lemma BigEndianRoundTrip(n: Word)
    ensures FromBigEndian(ToBigEndian(n)) == n
  {
  }

  lemma SplitOffByte(q: nat, r: Byte)
    ensures (q * 256 + r) / 256 == q && (q * 256 + r) % 256 == r
  {
  }

  lemma BigEndianIsInjective(b: Bytes)
    requires |b| == 4
    ensures ToBigEndian(FromBigEndian(b)) == b
  {
    var n := FromBigEndian(b);
    var two: nat := b[0] as int * 256 + b[1];
    var three: nat := two * 256 + b[2];
    SplitOffByte(b[0], b[1]);
    SplitOffByte(two, b[2]);
    SplitOffByte(three, b[3]);
    assert n / 256 == three && n / 0x1_0000 == two && n / 0x100_0000 == b[0];
  }

  lemma ChunkLength(k: Codec, c: Chunk)
    requires Fits(c)
    ensures |EncodeChunk(k, c)| == 12 + |c.data|
  {
  }

  lemma ShapedFits(cs: seq<Chunk>, seenCritical: bool)
    requires Shaped(cs, seenCritical)
    ensures forall c | c in cs :: Fits(c)
    decreases |cs|
  {
  }

  // ---------- Reading what was encoded ----------

  lemma PrefixOfConcat(before: Bytes, part: Bytes, after: Bytes)
    ensures Prefix(before + part + after, |before|, |part|) == part
  {
  }

  /** Reading at the start of an encoded chunk returns the chunk. */
  lemma ReadEncoded(k: Codec, before: Bytes, c: Chunk, after: Bytes)
    requires Fits(c)
    ensures var content := before + (EncodeChunk(k, c) + after);
            |before| + 12 <= |content| && ReadChunk(k, content, |before|) == Success(c)
  {
    var length, crc := ToBigEndian(|c.data|), ToBigEndian(k.crc32(c.kind + c.data));
    var content := before + (EncodeChunk(k, c) + after);
    assert content == before + length + (c.kind + c.data + crc + after);
    PrefixOfConcat(before, length, c.kind + c.data + crc + after);
    assert content == (before + length) + c.kind + (c.data + crc + after);
    PrefixOfConcat(before + length, c.kind, c.data + crc + after);
    assert content == (before + length + c.kind) + c.data + (crc + after);
    PrefixOfConcat(before + length + c.kind, c.data, crc + after);
    assert content == (before + length + c.kind + c.data) + crc + after;
    PrefixOfConcat(before + length + c.kind + c.data, crc, after);
    BigEndianRoundTrip(|c.data|);
    BigEndianRoundTrip(k.crc32(c.kind + c.data));
  }

  lemma {:induction false} ScanEncoded(k: Codec, before: Bytes, cs: seq<Chunk>, seenCritical: bool)
    requires Shaped(cs, seenCritical) && forall c | c in cs :: Fits(c)
    ensures Scan(k, before + EncodeAll(k, cs), |before|, seenCritical) == Success(cs)
    decreases |cs|
  {
    hide ReadChunk, EncodeChunk;
    var c, rest := cs[0], cs[1..];
    var content := before + EncodeAll(k, cs);
    ReadEncoded(k, before, c, EncodeAll(k, rest));
    ChunkLength(k, c);
    assert content == before + (EncodeChunk(k, c) + EncodeAll(k, rest));
    if c.kind == IEND {
      assert rest == [] && EncodeAll(k, rest) == [];
      assert cs == [c];
    } else {
      ScanEncoded(k, before + EncodeChunk(k, c), rest, seenCritical || IsCritical(c));
      assert content == before + EncodeChunk(k, c) + EncodeAll(k, rest);
      assert cs == [c] + rest;
    }
  }

  // ---------- What is read was encoded ----------

  /** A chunk that is read is encoded by exactly the bytes it was read from. */
  lemma ReadIsEncoded(k: Codec, content: Bytes, offset: nat)
    requires offset + 12 <= |content| && ReadChunk(k, content, offset).Success?
    ensures var c := ReadChunk(k, content, offset).value;
            content[offset..offset + 12 + |c.data|] == EncodeChunk(k, c)
  {
    var c := ReadChunk(k, content, offset).value;
    BigEndianIsInjective(Prefix(content, offset, 4));
    BigEndianIsInjective(Prefix(content, offset + 8 + |c.data|, 4));
    var end := offset + 12 + |c.data|;
    assert content[offset..end] == Prefix(content, offset, 4) + Prefix(content, offset + 4, 4)
                                   + Prefix(content, offset + 8, |c.data|) + Prefix(content, offset + 8 + |c.data|, 4);
  }

  lemma {:induction false} ScanIsEncoded(k: Codec, content: Bytes, offset: nat, seenCritical: bool)
    requires offset <= |content| && Scan(k, content, offset, seenCritical).Success?
    ensures var cs := Scan(k, content, offset, seenCritical).value;
            Shaped(cs, seenCritical) && (forall c | c in cs :: Fits(c)) && content[offset..] == EncodeAll(k, cs)
    decreases |content| - offset
  {
    hide ReadChunk, EncodeChunk;
    var c := ReadChunk(k, content, offset).value;
    var end := offset + 12 + |c.data|;
    var cs := Scan(k, content, offset, seenCritical).value;
    ReadIsEncoded(k, content, offset);
    if c.kind == IEND {
      assert cs == [c] && EncodeAll(k, cs[1..]) == [];
      assert content[offset..] == content[offset..end];
    } else {
      var rest := Scan(k, content, end, seenCritical || IsCritical(c));
      ScanIsEncoded(k, content, end, seenCritical || IsCritical(c));
      assert cs == [c] + rest.value && cs[1..] == rest.value;
      assert content[offset..] == content[offset..end] + content[end..];
    }
  }

  // ---------- Lengths ----------

  /** Every chunk moves the scan on by at least 12 bytes. */
  lemma {:induction false} EncodedLength(k: Codec, cs: seq<Chunk>)
    requires forall c | c in cs :: Fits(c)
    ensures |EncodeAll(k, cs)| >= 12 * |cs|
  {
    if cs != [] {
      ChunkLength(k, cs[0]);
      EncodedLength(k, cs[1..]);
    }
  }

  /** A shaped list is long enough for its header, its image data and its end chunk. */
  lemma {:induction false} ShapedLength(k: Codec, cs: seq<Chunk>, seenCritical: bool, before: Header)
    requires Shaped(cs, seenCritical) && forall c | c in cs :: Fits(c)
    ensures |EncodeAll(k, cs)| >= 12 + (if HeaderOf(cs, before) != before then 25 else 0)
    decreases |cs|
  {
    if cs[0].kind != IEND {
      var h := if cs[0].kind == IHDR && |cs[0].data| == 13 then ParseHeader(cs[0].data) else before;
      ShapedLength(k, cs[1..], seenCritical || IsCritical(cs[0]), h);
    }
  }

  lemma AcceptedLength(k: Codec, cs: seq<Chunk>)
    requires Accepted(k, cs) && forall c | c in cs :: Fits(c)
    ensures |EncodeFile(k, cs)| >= 45
  {
    ShapedLength(k, cs, false, NO_HEADER);
  }

  // ---------- The critical chunks ----------

  lemma {:induction false} CriticalKeeps(cs: seq<Chunk>, before: Header)
    ensures ImageData(Critical(cs)) == ImageData(cs) && HeaderOf(Critical(cs), before) == HeaderOf(cs, before)
    ensures Critical(Critical(cs)) == Critical(cs)
  {
    if cs != [] {
      CriticalKeeps(cs[1..], if cs[0].kind == IHDR && |cs[0].data| == 13 then ParseHeader(cs[0].data) else before);
      if IsCritical(cs[0]) {
        assert Critical(cs) == [cs[0]] + Critical(cs[1..]) && Critical(cs)[1..] == Critical(cs[1..]);
      } else {
        assert Critical(cs) == Critical(cs[1..]);
      }
    }
  }

  lemma {:induction false} CriticalShaped(cs: seq<Chunk>, seenCritical: bool)
    requires Shaped(cs, seenCritical)
    ensures Shaped(Critical(cs), seenCritical)
    decreases |cs|
  {
    if cs[0].kind == IEND {
      assert Critical(cs[1..]) == [];
      assert Critical(cs) == [cs[0]];
    } else {
      CriticalShaped(cs[1..], seenCritical || IsCritical(cs[0]));
      if IsCritical(cs[0]) {
        assert Critical(cs) == [cs[0]] + Critical(cs[1..]) && Critical(cs)[1..] == Critical(cs[1..]);
      } else {
        assert Critical(cs) == Critical(cs[1..]);
      }
    }
  }

  lemma CriticalAccepted(k: Codec, cs: seq<Chunk>)
    requires Accepted(k, cs)
    ensures Accepted(k, Critical(cs)) && Critical(Critical(cs)) == Critical(cs)
    ensures ImageData(Critical(cs)) == ImageData(cs) && HeaderOf(Critical(cs), NO_HEADER) == HeaderOf(cs, NO_HEADER)
  {
    CriticalShaped(cs, false);
    CriticalKeeps(cs, NO_HEADER);
  }

  // ---------- Main results ----------

  /** Normalising an encoded, acceptable chunk list encodes just its critical chunks, in order. */
  lemma NormalizeUndoesEncoding(k: Codec, cs: seq<Chunk>)
    requires Accepted(k, cs)
    ensures (forall c | c in cs :: Fits(c)) && (forall c | c in Critical(cs) :: Fits(c))
    ensures var h := HeaderOf(cs, NO_HEADER);
            Normalize(k, EncodeFile(k, cs)) == Success(Picture(EncodeFile(k, Critical(cs)), h.width, h.height))
  {
    ShapedFits(cs, false);
    CriticalFits(cs);
    AcceptedLength(k, cs);
    ScanEncoded(k, SIGNATURE, cs, false);
    assert EncodeFile(k, cs)[..8] == SIGNATURE;
  }

  /** A file is accepted exactly when it is the encoding of an acceptable chunk list. */
  lemma AcceptsExactlyEncodings(k: Codec, content: Bytes)
    ensures Normalize(k, content).Success? <==>
              exists cs: seq<Chunk> :: Accepted(k, cs) && (forall c | c in cs :: Fits(c)) && content == EncodeFile(k, cs)
  {
    if Normalize(k, content).Success? {
      ScanIsEncoded(k, content, 8, false);
      var cs := Scan(k, content, 8, false).value;
      assert content == content[..8] + content[8..];
      assert Accepted(k, cs) && content == EncodeFile(k, cs);
    }
    forall cs: seq<Chunk> | Accepted(k, cs) && (forall c | c in cs :: Fits(c)) && content == EncodeFile(k, cs)
      ensures Normalize(k, content).Success?
    {
      NormalizeUndoesEncoding(k, cs);
    }
  }

  /** Only one chunk list encodes to a given acceptable file. */
  lemma EncodingIsInjective(k: Codec, one: seq<Chunk>, other: seq<Chunk>)
    requires Accepted(k, one) && Accepted(k, other)
    requires (forall c | c in one :: Fits(c)) && (forall c | c in other :: Fits(c))
    requires EncodeFile(k, one) == EncodeFile(k, other)
    ensures one == other
  {
    ScanEncoded(k, SIGNATURE, one, false);
    ScanEncoded(k, SIGNATURE, other, false);
  }

  /**
   Every output is accepted again, unchanged and with the same dimensions; it holds the critical chunks
   of the input, so the same header and the same image data.
   */
  lemma OutputIsAFixedPoint(k: Codec, content: Bytes)
    requires Normalize(k, content).Success?
    ensures var picture := Normalize(k, content).value;
            && Normalize(k, picture.content) == Success(picture)
            && var read, again := Scan(k, content, 8, false), Scan(k, picture.content, 8, false);
               && read.Success? && again == Success(Critical(read.value))
               && ImageData(again.value) == ImageData(read.value)
               && HeaderOf(again.value, NO_HEADER) == HeaderOf(read.value, NO_HEADER)
               && 8 + 12 * |read.value| <= |content|
  {
    ScanIsEncoded(k, content, 8, false);
    var cs := Scan(k, content, 8, false).value;
    assert content == content[..8] + content[8..];
    EncodedLength(k, cs);
    NormalizeUndoesEncoding(k, cs);
    CriticalAccepted(k, cs);
    NormalizeUndoesEncoding(k, Critical(cs));
    ScanEncoded(k, SIGNATURE, Critical(cs), false);
  }
}

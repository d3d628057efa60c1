/** The three packet formats byte by byte: which strings each decoder accepts, where every field stands, and which
    error a refused string gets. */
module WireLayout {
  import opened Words
  import opened WireFields
  import opened AudioProtocol
  import opened DataPlane
  import LasPacketParser

  /** Two, four and eight bytes, least significant first. */
  function Two(b: Bytes, off: nat): nat
    requires off + 2 <= |b|
  {
    b[off] as int + 0x100 * b[off + 1] as int
  }

  function Four(b: Bytes, off: nat): nat
    requires off + 4 <= |b|
  {
    Two(b, off) + 0x1_0000 * Two(b, off + 2)
  }

  function Eight(b: Bytes, off: nat): nat
    requires off + 8 <= |b|
  {
    Four(b, off) + 0x1_0000_0000 * Four(b, off + 4)
  }

  lemma TwoBytes(b: Bytes, off: nat)
    requires off + 2 <= |b|
    ensures Field(b, off, 2) == Two(b, off)
  {
    FieldSplits(b, off, 1);
    ByteField(b, off + 1);
  }

  lemma FourBytes(b: Bytes, off: nat)
    requires off + 4 <= |b|
    ensures Field(b, off, 4) == Four(b, off)
  {
    FieldSplits(b, off, 3);
    FieldSplits(b, off + 1, 2);
    TwoBytes(b, off + 2);
  }

  lemma EightBytes(b: Bytes, off: nat)
    requires off + 8 <= |b|
    ensures Field(b, off, 8) == Eight(b, off)
  {
    FieldSplits(b, off, 7);
    FieldSplits(b, off + 1, 6);
    FieldSplits(b, off + 2, 5);
    FieldSplits(b, off + 3, 4);
    FourBytes(b, off + 4);
  }

  lemma FieldSplits(b: Bytes, off: nat, w: nat)
    requires off + 1 + w <= |b|
    ensures Field(b, off, w + 1) == b[off] as int + 0x100 * Field(b, off + 1, w)
  {
    assert b[off..off + (w + 1)][1..] == b[off + 1..off + 1 + w];
  }

  predicate Begins(b: Bytes, last: byte, third: byte)
    requires |b| >= 4
  {
    b[0] == 0x4C && b[1] == 0x41 && b[2] == third && b[3] == last
  }

  /** The first four bytes are LAS1. */
  predicate BeginsLas1(b: Bytes)
    requires |b| >= 4
  {
    Begins(b, 0x31, 0x53)
  }

  /** The first four bytes are LAV2. */
  predicate BeginsLav2(b: Bytes)
    requires |b| >= 4
  {
    Begins(b, 0x32, 0x56)
  }

  lemma Magics(b: Bytes)
    requires |b| >= 4
    ensures b[0..4] == AUDIO_MAGIC <==> BeginsLas1(b)
    ensures b[0..4] == UDP_AUDIO_MAGIC_V2 <==> BeginsLav2(b)
  {
    assert b[0..4] == [b[0], b[1], b[2], b[3]];
  }

  /** LAS1: 27 bytes of header and then the payload, whose length the header gives. */
  lemma LegacyLayout(b: Bytes)
    ensures var d := DecodeLegacy(b);
            if |b| < 27 then d == Err(TooShort)
            else if !BeginsLas1(b) then d == Err(InvalidMagic)
            else if |b| != 27 + Two(b, 25) then d == Err(PayloadLengthMismatch)
            else
              && d.Ok?
              && d.value.version == b[4] && d.value.flags == b[5] && d.value.sequence == Four(b, 6)
              && d.value.timestampMs == Eight(b, 10) && d.value.sampleRate == Four(b, 18) && d.value.channels == b[22]
              && d.value.framesPerPacket == Two(b, 23) && d.value.payload == b[27..]
  {
    if |b| >= 27 {
      Magics(b);
      FourBytes(b, 6); EightBytes(b, 10); FourBytes(b, 18); TwoBytes(b, 23); TwoBytes(b, 25);
    }
    hide Field, Begins;
  }

  /** The fields of the shared LAV2 prefix, after the magic. */
  predicate CommonAt(b: Bytes, c: Common)
    requires |b| >= 31
  {
    && c.protocolVersion == b[4] && c.headerSize == Two(b, 5) && c.flags == Two(b, 7) && c.sequence == Four(b, 9)
    && c.timestampMs == Eight(b, 13) && c.codec.ToByte() == b[21] && c.channels == b[22]
    && c.sampleRate == Four(b, 23) && c.frameDurationMs == Two(b, 27) && c.payloadSize == Two(b, 29)
  }

  lemma CommonLayout(b: Bytes, version: byte, headerLen: nat)
    requires headerLen >= 31
    ensures var d := DecodeCommon(b, version, headerLen);
            if |b| < headerLen then d == Err(TooShort)
            else if !BeginsLav2(b) then d == Err(InvalidMagic)
            else if b[4] != version then d == Err(UnsupportedVersion)
            else if Two(b, 5) != headerLen then d == Err(InvalidHeaderSize)
            else if !(1 <= b[21] <= 4) then d == Err(InvalidCodec)
            else d.Ok? && CommonAt(b, d.value)
  {
    if |b| >= headerLen {
      Magics(b);
      TwoBytes(b, 5); TwoBytes(b, 7); FourBytes(b, 9); EightBytes(b, 13); FourBytes(b, 23); TwoBytes(b, 27);
      TwoBytes(b, 29);
    }
    hide Field, Begins;
  }

  /** Version 2: 33 bytes of header, the last two reserved. */
  lemma V2Layout(b: Bytes)
    ensures var d := DecodeV2(b);
            if |b| < 33 then d == Err(TooShort)
            else if !BeginsLav2(b) then d == Err(InvalidMagic)
            else if b[4] != 2 then d == Err(UnsupportedVersion)
            else if Two(b, 5) != 33 then d == Err(InvalidHeaderSize)
            else if !(1 <= b[21] <= 4) then d == Err(InvalidCodec)
            else if |b| != 33 + Two(b, 29) then d == Err(PayloadLengthMismatch)
            else
              && d.Ok? && CommonAt(b, d.value.header.common)
              && d.value.header.reserved == Two(b, 31) && d.value.payload == b[33..]
  {
    CommonLayout(b, 2, 33);
    if |b| >= 33 {
      TwoBytes(b, 31);
    }
    hide Field, Begins, DecodeCommon;
  }

  /** Version 3: 37 bytes of header, ending with the fragment's index, the number of fragments and the number of the
      frame; an index must lie below the number. */
  lemma V3Layout(b: Bytes)
    ensures var d := DecodeV3(b);
            if |b| < 37 then d == Err(TooShort)
            else if !BeginsLav2(b) then d == Err(InvalidMagic)
            else if b[4] != 3 then d == Err(UnsupportedVersion)
            else if Two(b, 5) != 37 then d == Err(InvalidHeaderSize)
            else if !(1 <= b[21] <= 4) then d == Err(InvalidCodec)
            else if b[31] >= b[32] then d == Err(InvalidFragHeader)
            else if |b| != 37 + Two(b, 29) then d == Err(PayloadLengthMismatch)
            else
              && d.Ok? && CommonAt(b, d.value.header.common)
              && d.value.header.fragIndex == b[31] && d.value.header.totalFrags == b[32]
              && d.value.header.logicalSeq == Four(b, 33) && d.value.payload == b[37..]
  {
    CommonLayout(b, 3, 37);
    if |b| >= 37 {
      FourBytes(b, 33);
    }
    hide Field, Begins, DecodeCommon;
  }

  /** The four codecs on the wire. */
  lemma CodecBytes()
    ensures Codec.Pcm16.ToByte() == 1 && Codec.F32.ToByte() == 2
    ensures Codec.Opus.ToByte() == 3 && Codec.Pcm24.ToByte() == 4
  {
  }

  /** Which of the formats a datagram belongs to is told by its first four bytes alone. */
  lemma KindExactly(b: Bytes)
    ensures DetectKind(b) == PacketKind.LegacyLas1 <==> |b| >= 4 && BeginsLas1(b)
    ensures DetectKind(b) == V2Lav2 <==> |b| >= 4 && BeginsLav2(b)
  {
    if |b| >= 4 {
      Magics(b);
    }
  }

  /** What the server puts into a version 2 header. */
  lemma V2HeaderIs(p: LegacyPacket, flags: u16, codec: Codec)
    ensures var h := V2HeaderPreview(p, flags, codec);
            var c := h.common;
            && WellFormedV2(h) && h.reserved == 0 && c.flags == flags && c.sequence == p.sequence
            && c.timestampMs == p.timestampMs && c.codec == codec && c.channels == p.channels
            && c.sampleRate == p.sampleRate
            && (|p.payload| < 0x1_0000 ==> c.payloadSize == |p.payload|)
            && (p.sampleRate == 0 ==> c.frameDurationMs == 0)
            && (p.sampleRate > 0 && p.framesPerPacket * 1000 < 0x1_0000 * p.sampleRate ==>
                  c.frameDurationMs * p.sampleRate <= p.framesPerPacket * 1000
                    < c.frameDurationMs * p.sampleRate + p.sampleRate)
  {
    if p.sampleRate > 0 && p.framesPerPacket * 1000 < 0x1_0000 * p.sampleRate {
      QuotientFits(p.framesPerPacket * 1000, p.sampleRate, p.framesPerPacket * 1000 / p.sampleRate);
    }
  }

  lemma QuotientFits(n: nat, d: int, q: int)
    requires d > 0 && n < 0x1_0000 * d && q == n / d
    ensures 0 <= q < 0x1_0000 && q * d <= n < q * d + d
  {
    assert n == q * d + n % d;
    AtLeast(q, 0x1_0000, d);
  }

  lemma AtLeast(q: int, k: int, d: int)
    requires d > 0
    ensures q >= k ==> q * d >= k * d
  {
    if q > k {
      MulAtLeast(q - k, d);
      assert (q - k) * d == q * d - k * d;
    }
  }

  /** A packet without a positive rate or duration holds no frames for the player. */
  lemma NothingToPlay(sampleRate: int32, durationMs: int)
    requires sampleRate <= 0 || durationMs <= 0
    ensures LasPacketParser.FramesOf(sampleRate, durationMs) == 0
  {
  }

  /** The Android parser: LAS1 as above; of LAV2 only version 2, with PCM16 or Opus, but with a header of any length
      from 33 bytes on, after which the payload begins. Words are read as signed. */
  lemma ParserLayout(b: Bytes)
    ensures var p := LasPacketParser.Parse(b);
            if |b| >= 27 && BeginsLas1(b) && |b| == 27 + Two(b, 25) then
              && p.Some?
              && p.value.protocolVersion == b[4] && p.value.headerSize == 27 && p.value.flags == b[5]
              && p.value.sequence == ToInt32(Four(b, 6)) && p.value.timestampMs == ToInt64(Eight(b, 10))
              && p.value.codec == 1 && p.value.sampleRate == ToInt32(Four(b, 18)) && p.value.channels == b[22]
              && p.value.framesPerPacket == Two(b, 23) && p.value.payload == b[27..]
            else if && |b| >= 33 && BeginsLav2(b) && b[4] == 2 && Two(b, 5) >= 33 && (b[21] == 1 || b[21] == 3)
                    && |b| == Two(b, 5) + Two(b, 29) then
              && p.Some?
              && p.value.protocolVersion == 2 && p.value.headerSize == Two(b, 5) && p.value.flags == Two(b, 7)
              && p.value.sequence == ToInt32(Four(b, 9)) && p.value.timestampMs == ToInt64(Eight(b, 13))
              && p.value.codec == b[21] && p.value.sampleRate == ToInt32(Four(b, 23)) && p.value.channels == b[22]
              && p.value.framesPerPacket == LasPacketParser.FramesOf(ToInt32(Four(b, 23)), Two(b, 27))
              && p.value.payload == b[Two(b, 5)..]
            else p == None
  {
    if |b| >= 4 {
      Magics(b);
    }
    if |b| >= 27 {
      FourBytes(b, 6); EightBytes(b, 10); FourBytes(b, 18); TwoBytes(b, 23); TwoBytes(b, 25);
    }
    if |b| >= 33 {
      TwoBytes(b, 5); TwoBytes(b, 7); FourBytes(b, 9); EightBytes(b, 13); FourBytes(b, 23); TwoBytes(b, 27);
      TwoBytes(b, 29);
    }
    hide Field, ToInt32, ToInt64, LasPacketParser.FramesOf;
  }
}

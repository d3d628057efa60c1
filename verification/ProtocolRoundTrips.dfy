/** Decoding inverts encoding and encoding inverts decoding, for the three packet formats;
    no datagram is read by two of the decoders. */
module ProtocolRoundTrips {
  import opened Words
  import opened WireFields
  import opened AudioProtocol

  /** One group of fields inside a datagram: where it starts, what it holds, what follows. */
  lemma GroupReads(before: Bytes, f: Fields, after: Bytes, b: Bytes)
    requires Fits(f) && b == before + Emit(f) + after
    ensures Reads(b, |before|, f)
  {
    EmittedReads(before, f, after);
  }

  lemma FitsTwo(f: Fields)
    requires f.Uint? && f.more.Uint?
    requires f.value < Pow256(f.width) && f.more.value < Pow256(f.more.width)
    ensures Fits(f) <==> Fits(f.more.more)
    ensures Size(f) == f.width + f.more.width + Size(f.more.more)
  {
  }

  lemma Rejoin(b: Bytes, n: nat, m: nat)
    requires n <= m <= |b|
    ensures b[..n] + b[n..m] + b[m..] == b
  {
  }

  // ---- LAS1 ----

  predicate HoldsLegacy(b: Bytes, p: LegacyPacket) {
    && |b| >= AUDIO_HEADER_LEN
    && Reads(b, 0, LegacyStart(p)) && Reads(b, 10, LegacyRest(p))
    && b[AUDIO_HEADER_LEN..] == p.payload
  }

  /** The offsets the decoder uses are those of the emitted fields. */
  lemma LegacyStartOffsets(b: Bytes, p: LegacyPacket)
    requires |b| >= 10
    ensures Reads(b, 0, LegacyStart(p)) <==>
              b[0..4] == AUDIO_MAGIC && b[4] == p.version && b[5] == p.flags && Field(b, 6, 4) == p.sequence
  {
    MagicField(b, AUDIO_MAGIC);
    ByteField(b, 4); ByteField(b, 5);
    assert Reads(b, 4, LegacyStart(p).more) <==>
        b[4] == p.version && b[5] == p.flags && Field(b, 6, 4) == p.sequence;
  }

  lemma LegacyRestOffsets(b: Bytes, p: LegacyPacket)
    requires |b| >= AUDIO_HEADER_LEN
    ensures Reads(b, 10, LegacyRest(p)) <==>
              && Field(b, 10, 8) == p.timestampMs && Field(b, 18, 4) == p.sampleRate && b[22] == p.channels
              && Field(b, 23, 2) == p.framesPerPacket && Field(b, 25, 2) == |p.payload| % TWO_16
  {
    ByteField(b, 22);
    assert Reads(b, 22, LegacyRest(p).more.more) <==>
        && b[22] == p.channels
        && Field(b, 23, 2) == p.framesPerPacket && Field(b, 25, 2) == |p.payload| % TWO_16;
  }

  lemma LegacyFits(p: LegacyPacket)
    ensures Fits(LegacyStart(p)) && Fits(LegacyRest(p))
    ensures Size(LegacyStart(p)) == 10 && Size(LegacyRest(p)) == 17
  {
    LittleEndianInverse(AUDIO_MAGIC);
    Powers();
    FitsTwo(LegacyStart(p));
    FitsTwo(LegacyStart(p).more.more);
    FitsTwo(LegacyRest(p));
    FitsTwo(LegacyRest(p).more.more.more);
  }

  lemma LegacyEncodingHolds(p: LegacyPacket)
    ensures HoldsLegacy(EncodeLegacy(p), p)
  {
    LegacyFits(p);
    var b, head := EncodeLegacy(p), Emit(LegacyStart(p));
    GroupReads([], LegacyStart(p), Emit(LegacyRest(p)) + p.payload, b);
    GroupReads(head, LegacyRest(p), p.payload, b);
  }

  /** A packet survives the wire exactly when its payload length fits the 16-bit length field. */
  lemma LegacyDecodeOfEncode(p: LegacyPacket)
    ensures DecodeLegacy(EncodeLegacy(p)) == Ok(p) <==> |p.payload| < TWO_16
    ensures |p.payload| >= TWO_16 ==> DecodeLegacy(EncodeLegacy(p)) == Err(PayloadLengthMismatch)
  {
    LegacyEncodingHolds(p);
    LegacyStartOffsets(EncodeLegacy(p), p);
    LegacyRestOffsets(EncodeLegacy(p), p);
  }

  lemma LegacyEncodeOfDecode(b: Bytes)
    requires DecodeLegacy(b).Ok?
    ensures EncodeLegacy(DecodeLegacy(b).value) == b
  {
    var p := DecodeLegacy(b).value;
    FieldRange(b, 25, 2);
    LegacyStartOffsets(b, p);
    LegacyRestOffsets(b, p);
    LegacyFits(p);
    ReadsEmit(b, 0, LegacyStart(p));
    ReadsEmit(b, 10, LegacyRest(p));
  }

  // ---- the shared LAV2 prefix ----

  predicate HoldsCommon(b: Bytes, c: Common) {
    |b| >= 31 && Reads(b, 0, CommonStart(c)) && Reads(b, 13, CommonRest(c))
  }

  lemma CommonStartOffsets(b: Bytes, c: Common)
    requires |b| >= 13
    ensures Reads(b, 0, CommonStart(c)) <==>
              && b[0..4] == c.magic && b[4] == c.protocolVersion && Field(b, 5, 2) == c.headerSize
              && Field(b, 7, 2) == c.flags && Field(b, 9, 4) == c.sequence
  {
    MagicField(b, c.magic);
    ByteField(b, 4);
    assert Reads(b, 5, CommonStart(c).more.more) <==>
        Field(b, 5, 2) == c.headerSize && Field(b, 7, 2) == c.flags && Field(b, 9, 4) == c.sequence;
  }

  lemma CommonRestOffsets(b: Bytes, c: Common)
    requires |b| >= 31
    ensures Reads(b, 13, CommonRest(c)) <==>
              && Field(b, 13, 8) == c.timestampMs && b[21] == c.codec.ToByte() && b[22] == c.channels
              && Field(b, 23, 4) == c.sampleRate && Field(b, 27, 2) == c.frameDurationMs
              && Field(b, 29, 2) == c.payloadSize
  {
    ByteField(b, 21); ByteField(b, 22);
    assert Reads(b, 23, CommonRest(c).more.more.more) <==>
        && Field(b, 23, 4) == c.sampleRate && Field(b, 27, 2) == c.frameDurationMs
        && Field(b, 29, 2) == c.payloadSize;
    assert Reads(b, 21, CommonRest(c).more) <==>
        b[21] == c.codec.ToByte() && b[22] == c.channels && Reads(b, 23, CommonRest(c).more.more.more);
  }

  lemma CommonFits(c: Common)
    ensures Fits(CommonStart(c)) && Fits(CommonRest(c))
    ensures Size(CommonStart(c)) == 13 && Size(CommonRest(c)) == 18
  {
    LittleEndianInverse(c.magic);
    Powers();
    CodecByteRoundTrip(c.codec, 0);
    FitsTwo(CommonStart(c));
    FitsTwo(CommonStart(c).more.more.more);
    FitsTwo(CommonRest(c));
    FitsTwo(CommonRest(c).more.more.more.more);
    FitsTwo(CommonRest(c).more.more);
  }

  lemma CommonEncodingHolds(c: Common, after: Bytes)
    ensures |EncodeCommon(c)| == 31
    ensures HoldsCommon(EncodeCommon(c) + after, c)
  {
    CommonFits(c);
    var b := EncodeCommon(c) + after;
    GroupReads([], CommonStart(c), Emit(CommonRest(c)) + after, b);
    GroupReads(Emit(CommonStart(c)), CommonRest(c), after, b);
  }

  lemma CommonDecodes(b: Bytes, c: Common, version: byte, headerLen: nat)
    requires |b| >= headerLen >= 31 && HoldsCommon(b, c) && Stamped(c, version, headerLen)
    ensures DecodeCommon(b, version, headerLen) == Ok(c)
    ensures DecodeLegacy(b) == Err(InvalidMagic) && DetectKind(b) == V2Lav2
  {
    CommonStartOffsets(b, c);
    CommonRestOffsets(b, c);
    CodecByteRoundTrip(c.codec, 0);
    assert AUDIO_MAGIC[2] != UDP_AUDIO_MAGIC_V2[2];
  }

  lemma DecodedCommonEncodes(b: Bytes, version: byte, headerLen: nat)
    requires headerLen >= 31 && DecodeCommon(b, version, headerLen).Ok?
    ensures Stamped(DecodeCommon(b, version, headerLen).value, version, headerLen)
    ensures EncodeCommon(DecodeCommon(b, version, headerLen).value) == b[..31]
  {
    var c := DecodeCommon(b, version, headerLen).value;
    CodecByteRoundTrip(c.codec, b[21]);
    CommonStartOffsets(b, c);
    CommonRestOffsets(b, c);
    CommonFits(c);
    ReadsEmit(b, 0, CommonStart(c));
    ReadsEmit(b, 13, CommonRest(c));
  }

  // ---- version 2 ----

  /** The packet as the receiver sees it: the sender's payload size is overwritten. */
  function ReceivedV2(p: PacketV2): PacketV2 {
    p.(header := p.header.(common := Sized(p.header.common, p.payload)))
  }

  lemma V2Bytes(p: PacketV2)
    ensures var b := EncodeV2(p);
            && |b| == UDP_AUDIO_HEADER_V2_LEN + |p.payload| && b[UDP_AUDIO_HEADER_V2_LEN..] == p.payload
            && HoldsCommon(b, Sized(p.header.common, p.payload))
            && Field(b, 31, 2) == p.header.reserved
  {
    var b, c, tail := EncodeV2(p), Sized(p.header.common, p.payload), Uint(2, p.header.reserved, End);
    Powers();
    CommonEncodingHolds(c, Emit(tail) + p.payload);
    hide EncodeCommon, HoldsCommon, Sized, Field;
    assert b == EncodeCommon(c) + (Emit(tail) + p.payload);
    GroupReads(EncodeCommon(c), tail, p.payload, b);
    assert |Emit(tail)| == 2;
  }

  lemma V2Decodes(b: Bytes, c: Common, reserved: u16)
    requires |b| >= UDP_AUDIO_HEADER_V2_LEN && HoldsCommon(b, c) && Field(b, 31, 2) == reserved
    requires Stamped(c, PROTOCOL_VERSION_V2, UDP_AUDIO_HEADER_V2_LEN)
    ensures DecodeV2(b) == if |b| == UDP_AUDIO_HEADER_V2_LEN + c.payloadSize
                           then Ok(PacketV2(HeaderV2(c, reserved), b[UDP_AUDIO_HEADER_V2_LEN..]))
                           else Err(PayloadLengthMismatch)
    ensures DetectKind(b) == V2Lav2
  {
    CommonDecodes(b, c, PROTOCOL_VERSION_V2, UDP_AUDIO_HEADER_V2_LEN);
    hide HoldsCommon, DecodeCommon, DetectKind, Field;
  }

  lemma V2DecodeOfEncode(p: PacketV2)
    requires WellFormedV2(p.header)
    ensures DecodeV2(EncodeV2(p)) == Ok(ReceivedV2(p)) <==> |p.payload| < TWO_16
    ensures |p.payload| >= TWO_16 ==> DecodeV2(EncodeV2(p)) == Err(PayloadLengthMismatch)
    ensures DetectKind(EncodeV2(p)) == V2Lav2
  {
    V2Bytes(p);
    hide HoldsCommon, DecodeV2, EncodeV2, DetectKind, Field;
    V2Decodes(EncodeV2(p), Sized(p.header.common, p.payload), p.header.reserved);
  }

  lemma V2EncodeOfDecode(b: Bytes)
    requires DecodeV2(b).Ok?
    ensures WellFormedV2(DecodeV2(b).value.header)
    ensures EncodeV2(DecodeV2(b).value) == b
  {
    var p := DecodeV2(b).value;
    DecodedCommonEncodes(b, PROTOCOL_VERSION_V2, UDP_AUDIO_HEADER_V2_LEN);
    var tail := Uint(2, p.header.reserved, End);
    assert Reads(b, 31, tail);
    ReadsEmit(b, 31, tail);
    assert Emit(tail) == b[31..33] && p.payload == b[33..] && Sized(p.header.common, p.payload) == p.header.common;
    hide DecodeCommon, DecodeV2, EncodeCommon, Emit, Reads, Field;
    Rejoin(b, 31, 33);
  }

  // ---- version 3 ----

  function ReceivedV3(p: PacketV3): PacketV3 {
    p.(header := p.header.(common := Sized(p.header.common, p.payload)))
  }

  lemma V3TailOffsets(b: Bytes, h: HeaderV3)
    requires |b| >= UDP_AUDIO_HEADER_V3_LEN
    ensures Reads(b, 31, V3Tail(h)) <==>
              b[31] == h.fragIndex && b[32] == h.totalFrags && Field(b, 33, 4) == h.logicalSeq
  {
    ByteField(b, 31); ByteField(b, 32);
    assert Reads(b, 32, V3Tail(h).more) <==> b[32] == h.totalFrags && Field(b, 33, 4) == h.logicalSeq;
  }

  lemma V3TailFits(h: HeaderV3)
    ensures Fits(V3Tail(h)) && Size(V3Tail(h)) == 6
  {
    Powers();
    FitsTwo(V3Tail(h));
  }

  lemma V3Bytes(p: PacketV3)
    ensures var b := EncodeV3(p);
            && |b| == UDP_AUDIO_HEADER_V3_LEN + |p.payload| && b[UDP_AUDIO_HEADER_V3_LEN..] == p.payload
            && HoldsCommon(b, Sized(p.header.common, p.payload))
            && b[31] == p.header.fragIndex && b[32] == p.header.totalFrags && Field(b, 33, 4) == p.header.logicalSeq
  {
    var b, c, tail := EncodeV3(p), Sized(p.header.common, p.payload), V3Tail(p.header);
    V3TailFits(p.header);
    CommonEncodingHolds(c, Emit(tail) + p.payload);
    hide EncodeCommon, HoldsCommon, Sized, V3Tail, Emit, Field, Reads;
    assert b == EncodeCommon(c) + (Emit(tail) + p.payload);
    GroupReads(EncodeCommon(c), tail, p.payload, b);
    V3TailOffsets(b, p.header);
  }

  lemma V3Decodes(b: Bytes, c: Common, fragIndex: byte, totalFrags: byte, logicalSeq: u32)
    requires |b| >= UDP_AUDIO_HEADER_V3_LEN && HoldsCommon(b, c)
    requires b[31] == fragIndex < totalFrags == b[32] && Field(b, 33, 4) == logicalSeq
    requires Stamped(c, PROTOCOL_VERSION_V3, UDP_AUDIO_HEADER_V3_LEN)
    ensures DecodeV3(b) == if |b| == UDP_AUDIO_HEADER_V3_LEN + c.payloadSize
                           then Ok(PacketV3(HeaderV3(c, fragIndex, totalFrags, logicalSeq),
                                            b[UDP_AUDIO_HEADER_V3_LEN..]))
                           else Err(PayloadLengthMismatch)
    ensures DetectKind(b) == V2Lav2
  {
    CommonDecodes(b, c, PROTOCOL_VERSION_V3, UDP_AUDIO_HEADER_V3_LEN);
    hide HoldsCommon, DecodeCommon, DetectKind, Field;
  }

  lemma V3DecodeOfEncode(p: PacketV3)
    requires WellFormedV3(p.header)
    ensures DecodeV3(EncodeV3(p)) == Ok(ReceivedV3(p)) <==> |p.payload| < TWO_16
    ensures |p.payload| >= TWO_16 ==> DecodeV3(EncodeV3(p)) == Err(PayloadLengthMismatch)
    ensures DetectKind(EncodeV3(p)) == V2Lav2
  {
    V3Bytes(p);
    hide HoldsCommon, DecodeV3, EncodeV3, DetectKind, Field;
    V3Decodes(EncodeV3(p), Sized(p.header.common, p.payload), p.header.fragIndex, p.header.totalFrags,
              p.header.logicalSeq);
  }

  lemma V3EncodeOfDecode(b: Bytes)
    requires DecodeV3(b).Ok?
    ensures WellFormedV3(DecodeV3(b).value.header)
    ensures EncodeV3(DecodeV3(b).value) == b
  {
    var p := DecodeV3(b).value;
    DecodedCommonEncodes(b, PROTOCOL_VERSION_V3, UDP_AUDIO_HEADER_V3_LEN);
    V3TailFits(p.header);
    V3TailOffsets(b, p.header);
    assert p.header.fragIndex == b[31] && p.header.totalFrags == b[32] && p.header.logicalSeq == Field(b, 33, 4);
    hide Emit, Reads, V3Tail, EncodeCommon, Field, DecodeCommon;
    ReadsEmit(b, 31, V3Tail(p.header));
    assert Emit(V3Tail(p.header)) == b[31..37] && p.payload == b[37..];
    assert Sized(p.header.common, p.payload) == p.header.common;
    hide DecodeV3;
    Rejoin(b, 31, 37);
  }

  /** The three decoders accept disjoint sets of datagrams. */
  lemma DecodersDisjoint(b: Bytes)
    ensures !(DecodeLegacy(b).Ok? && DecodeV2(b).Ok?)
    ensures !(DecodeLegacy(b).Ok? && DecodeV3(b).Ok?)
    ensures !(DecodeV2(b).Ok? && DecodeV3(b).Ok?)
    ensures DecodeLegacy(b).Ok? ==> DetectKind(b) == LegacyLas1
    ensures DecodeV2(b).Ok? || DecodeV3(b).Ok? ==> DetectKind(b) == V2Lav2
  {
    assert AUDIO_MAGIC[2] != UDP_AUDIO_MAGIC_V2[2];
  }
}

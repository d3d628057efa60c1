/** The Android datagram parser. It reads the same bytes as the protocol crate, but into signed
    machine integers, and it accepts only LAS1 and version 2 with a PCM16 or Opus payload. */
module LasPacketParser {
  import opened Words
  import opened WireFields
  import P = AudioProtocol
  import opened LasPackets

  function Parse(b: Bytes): Option<LasPacket> {
    if |b| < 4 then None
    else if b[0..4] == P.AUDIO_MAGIC then ParseLegacy(b)
    else if b[0..4] == P.UDP_AUDIO_MAGIC_V2 then ParseV2(b)
    else None
  }

  function ParseLegacy(b: Bytes): Option<LasPacket> {
    if |b| < 27 then None
    else if |b| != 27 + Field(b, 25, 2) then None
    else Some(LasPacket(b[4], 27, b[5], ToInt32(Field(b, 6, 4)), ToInt64(Field(b, 10, 8)), CODEC_PCM16,
                        ToInt32(Field(b, 18, 4)), b[22], Field(b, 23, 2), b[27..]))
  }

  /** Frames in a version 2 packet, from its rate and duration: a 32-bit product, which may wrap. */
  function FramesOf(sampleRate: int32, durationMs: int): int {
    if sampleRate <= 0 || durationMs <= 0 then 0
    else TruncDiv(ToInt32(sampleRate * durationMs), 1000)
  }

  function ParseV2(b: Bytes): Option<LasPacket> {
    if |b| < 33 || b[4] != 2 then None
    else
      var headerSize := Field(b, 5, 2);
      if headerSize < 33 || |b| < headerSize then None
      else if b[21] as int != CODEC_PCM16 && b[21] as int != CODEC_OPUS then None
      else if |b| != headerSize + Field(b, 29, 2) then None
      else
        var sampleRate := ToInt32(Field(b, 23, 4));
        Some(LasPacket(b[4], headerSize, Field(b, 7, 2), ToInt32(Field(b, 9, 4)), ToInt64(Field(b, 13, 8)),
                       b[21], sampleRate, b[22], FramesOf(sampleRate, Field(b, 27, 2)), b[headerSize..]))
  }

  // ---- agreement with the protocol crate ----

  /** A LAS1 packet of the protocol crate, read as signed integers. */
  function SignedLegacy(p: P.LegacyPacket): LasPacket {
    LasPacket(p.version, P.AUDIO_HEADER_LEN, p.flags, ToInt32(p.sequence), ToInt64(p.timestampMs),
              P.Codec.Pcm16.ToByte(), ToInt32(p.sampleRate), p.channels, p.framesPerPacket, p.payload)
  }

  function SignedV2(p: P.PacketV2): LasPacket {
    var c := p.header.common;
    LasPacket(c.protocolVersion, c.headerSize, c.flags, ToInt32(c.sequence), ToInt64(c.timestampMs),
              c.codec.ToByte(), ToInt32(c.sampleRate), c.channels,
              FramesOf(ToInt32(c.sampleRate), c.frameDurationMs), p.payload)
  }

  predicate PlayableCodec(c: P.Codec) {
    c.Pcm16? || c.Opus?
  }

  /** Both sides accept exactly the same LAS1 datagrams, with equal fields. */
  lemma AgreesOnLegacy(b: Bytes)
    ensures P.DecodeLegacy(b).Ok? <==> Parse(b).Some? && Parse(b).value.headerSize == P.AUDIO_HEADER_LEN
    ensures P.DecodeLegacy(b).Ok? ==> Parse(b) == Some(SignedLegacy(P.DecodeLegacy(b).value))
  {
    assert P.AUDIO_MAGIC[2] != P.UDP_AUDIO_MAGIC_V2[2];
  }

  /** The parser's LAV2 packets with a 33-byte header are exactly the version 2 datagrams of the
      protocol crate with a PCM16 or Opus payload, with equal fields. */
  lemma AgreesOnV2(b: Bytes)
    ensures P.DecodeV2(b).Ok? && PlayableCodec(P.DecodeV2(b).value.header.common.codec) <==>
              Parse(b).Some? && Parse(b).value.headerSize == P.UDP_AUDIO_HEADER_V2_LEN
    ensures P.DecodeV2(b).Ok? && PlayableCodec(P.DecodeV2(b).value.header.common.codec) ==>
              Parse(b) == Some(SignedV2(P.DecodeV2(b).value))
  {
    assert P.AUDIO_MAGIC[2] != P.UDP_AUDIO_MAGIC_V2[2];
    if |b| >= 33 {
      P.FieldRange(b, 5, 2);
    }
  }

  /** Fragmented high-resolution datagrams are never played by this parser. */
  lemma RejectsV3(b: Bytes)
    requires P.DecodeV3(b).Ok?
    ensures Parse(b) == None
  {
    assert P.AUDIO_MAGIC[2] != P.UDP_AUDIO_MAGIC_V2[2];
  }
}

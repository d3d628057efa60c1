/** The three UDP packet formats of the protocol crate: LAS1, and the two LAV2 headers
    (versions 2 and 3). Encoders write little-endian fields in order; decoders read absolute
    offsets and reject with an error. */
module AudioProtocol {
  import opened Words
  import opened WireFields

  const AUDIO_MAGIC: Magic := [0x4C, 0x41, 0x53, 0x31]         // "LAS1"
  const UDP_AUDIO_MAGIC_V2: Magic := [0x4C, 0x41, 0x56, 0x32]  // "LAV2"
  const UDP_AUDIO_MAGIC_V3: Magic := UDP_AUDIO_MAGIC_V2
  const AUDIO_HEADER_LEN := 27
  const UDP_AUDIO_HEADER_V2_LEN := 33
  const UDP_AUDIO_HEADER_V3_LEN := 37
  const PROTOCOL_VERSION_V2: byte := 2
  const PROTOCOL_VERSION_V3: byte := 3

  type Magic = m: Bytes | |m| == 4 witness [0, 0, 0, 0]

  datatype Result<+T> = Ok(value: T) | Err(error: WireError)

  datatype WireError =
    | TooShort | InvalidMagic | UnsupportedVersion | InvalidHeaderSize
    | InvalidCodec | InvalidFragHeader | PayloadLengthMismatch

  datatype Codec = Pcm16 | F32 | Opus | Pcm24 {
    function ToByte(): byte {
      match this
      case Pcm16 => 1
      case F32 => 2
      case Opus => 3
      case Pcm24 => 4
    }
  }

  function CodecFromByte(b: byte): Option<Codec> {
    match b
    case 1 => Some(Pcm16)
    case 2 => Some(F32)
    case 3 => Some(Opus)
    case 4 => Some(Pcm24)
    case _ => None
  }

  datatype LegacyPacket = LegacyPacket(
    version: byte, flags: byte, sequence: u32, timestampMs: u64, sampleRate: u32,
    channels: byte, framesPerPacket: u16, payload: Bytes)

  /** The eleven fields (31 bytes) that the two LAV2 headers share, in wire order. */
  datatype Common = Common(
    magic: Magic, protocolVersion: byte, headerSize: u16, flags: u16, sequence: u32,
    timestampMs: u64, codec: Codec, channels: byte, sampleRate: u32,
    frameDurationMs: u16, payloadSize: u16)

  datatype HeaderV2 = HeaderV2(common: Common, reserved: u16)
  datatype HeaderV3 = HeaderV3(common: Common, fragIndex: byte, totalFrags: byte, logicalSeq: u32)

  datatype PacketV2 = PacketV2(header: HeaderV2, payload: Bytes)
  datatype PacketV3 = PacketV3(header: HeaderV3, payload: Bytes)

  // ---- LAS1 ----

  function LegacyStart(p: LegacyPacket): Fields {
    Uint(4, FromLittleEndian(AUDIO_MAGIC), Uint(1, p.version, Uint(1, p.flags, Uint(4, p.sequence, End))))
  }

  function LegacyRest(p: LegacyPacket): Fields {
    Uint(8, p.timestampMs, Uint(4, p.sampleRate, Uint(1, p.channels,
    Uint(2, p.framesPerPacket, Uint(2, |p.payload| % TWO_16, End)))))
  }

  function EncodeLegacy(p: LegacyPacket): Bytes {
    Emit(LegacyStart(p)) + Emit(LegacyRest(p)) + p.payload
  }

  function DecodeLegacy(b: Bytes): Result<LegacyPacket> {
    if |b| < AUDIO_HEADER_LEN then Err(TooShort)
    else if b[0..4] != AUDIO_MAGIC then Err(InvalidMagic)
    else if |b| != AUDIO_HEADER_LEN + Field(b, 25, 2) then Err(PayloadLengthMismatch)
    else
      FieldRange(b, 6, 4); FieldRange(b, 10, 8); FieldRange(b, 18, 4); FieldRange(b, 23, 2);
      Ok(LegacyPacket(b[4], b[5], Field(b, 6, 4), Field(b, 10, 8), Field(b, 18, 4), b[22],
                      Field(b, 23, 2), b[AUDIO_HEADER_LEN..]))
  }

  // ---- the shared LAV2 prefix ----

  function CommonStart(c: Common): Fields {
    Uint(4, FromLittleEndian(c.magic), Uint(1, c.protocolVersion, Uint(2, c.headerSize,
    Uint(2, c.flags, Uint(4, c.sequence, End)))))
  }

  function CommonRest(c: Common): Fields {
    Uint(8, c.timestampMs, Uint(1, c.codec.ToByte(), Uint(1, c.channels, Uint(4, c.sampleRate,
    Uint(2, c.frameDurationMs, Uint(2, c.payloadSize, End))))))
  }

  function EncodeCommon(c: Common): Bytes {
    Emit(CommonStart(c)) + Emit(CommonRest(c))
  }

  function DecodeCommon(b: Bytes, version: byte, headerLen: nat): (r: Result<Common>)
    requires headerLen >= 31
    ensures r.Ok? ==> |b| >= headerLen
  {
    if |b| < headerLen then Err(TooShort)
    else if b[0..4] != UDP_AUDIO_MAGIC_V2 then Err(InvalidMagic)
    else if b[4] != version then Err(UnsupportedVersion)
    else if Field(b, 5, 2) != headerLen then Err(InvalidHeaderSize)
    else
      match CodecFromByte(b[21])
      case None => Err(InvalidCodec)
      case Some(codec) =>
        FieldRange(b, 5, 2); FieldRange(b, 7, 2); FieldRange(b, 9, 4); FieldRange(b, 13, 8);
        FieldRange(b, 23, 4); FieldRange(b, 27, 2); FieldRange(b, 29, 2);
        Ok(Common(b[0..4], b[4], Field(b, 5, 2), Field(b, 7, 2), Field(b, 9, 4), Field(b, 13, 8),
                  codec, b[22], Field(b, 23, 4), Field(b, 27, 2), Field(b, 29, 2)))
  }

  // ---- LAV2 version 2 ----

  function DecodeV2Header(b: Bytes): (r: Result<HeaderV2>)
    ensures r.Ok? ==> |b| >= UDP_AUDIO_HEADER_V2_LEN
  {
    match DecodeCommon(b, PROTOCOL_VERSION_V2, UDP_AUDIO_HEADER_V2_LEN)
    case Err(e) => Err(e)
    case Ok(common) =>
      FieldRange(b, 31, 2);
      Ok(HeaderV2(common, Field(b, 31, 2)))
  }

  /** The encoder overwrites the payload size in the header with the truncated payload length. */
  function Sized(c: Common, payload: Bytes): Common {
    c.(payloadSize := |payload| % TWO_16)
  }

  function EncodeV2(p: PacketV2): Bytes {
    EncodeCommon(Sized(p.header.common, p.payload)) + Emit(Uint(2, p.header.reserved, End)) + p.payload
  }

  function DecodeV2(b: Bytes): Result<PacketV2> {
    match DecodeV2Header(b)
    case Err(e) => Err(e)
    case Ok(header) =>
      if |b| != UDP_AUDIO_HEADER_V2_LEN + header.common.payloadSize then Err(PayloadLengthMismatch)
      else Ok(PacketV2(header, b[UDP_AUDIO_HEADER_V2_LEN..]))
  }

  // ---- LAV2 version 3 ----

  function V3Tail(h: HeaderV3): Fields {
    Uint(1, h.fragIndex, Uint(1, h.totalFrags, Uint(4, h.logicalSeq, End)))
  }

  function DecodeV3Header(b: Bytes): (r: Result<HeaderV3>)
    ensures r.Ok? ==> |b| >= UDP_AUDIO_HEADER_V3_LEN
  {
    match DecodeCommon(b, PROTOCOL_VERSION_V3, UDP_AUDIO_HEADER_V3_LEN)
    case Err(e) => Err(e)
    case Ok(common) =>
      if b[32] == 0 || b[31] >= b[32] then Err(InvalidFragHeader)
      else
        FieldRange(b, 33, 4);
        Ok(HeaderV3(common, b[31], b[32], Field(b, 33, 4)))
  }

  function EncodeV3(p: PacketV3): Bytes {
    EncodeCommon(Sized(p.header.common, p.payload)) + Emit(V3Tail(p.header)) + p.payload
  }

  function DecodeV3(b: Bytes): Result<PacketV3> {
    match DecodeV3Header(b)
    case Err(e) => Err(e)
    case Ok(header) =>
      if |b| != UDP_AUDIO_HEADER_V3_LEN + header.common.payloadSize then Err(PayloadLengthMismatch)
      else Ok(PacketV3(header, b[UDP_AUDIO_HEADER_V3_LEN..]))
  }

  /** The constants that a sender puts in the shared prefix of each version. */
  predicate Stamped(c: Common, version: byte, headerLen: nat) {
    c.magic == UDP_AUDIO_MAGIC_V2 && c.protocolVersion == version && c.headerSize == headerLen
  }

  predicate WellFormedV2(h: HeaderV2) {
    Stamped(h.common, PROTOCOL_VERSION_V2, UDP_AUDIO_HEADER_V2_LEN)
  }

  predicate WellFormedV3(h: HeaderV3) {
    Stamped(h.common, PROTOCOL_VERSION_V3, UDP_AUDIO_HEADER_V3_LEN) && h.fragIndex < h.totalFrags
  }

  datatype PacketKind = LegacyLas1 | V2Lav2 | Unknown

  function DetectKind(b: Bytes): PacketKind {
    if |b| < 4 then Unknown
    else if b[0..4] == AUDIO_MAGIC then LegacyLas1
    else if b[0..4] == UDP_AUDIO_MAGIC_V2 then V2Lav2
    else Unknown
  }

  // ---- value ranges ----

  lemma Powers()
    ensures Pow256(1) == TWO_8 && Pow256(2) == TWO_16 && Pow256(4) == TWO_32 && Pow256(8) == TWO_64
  {
    assert Pow256(3) == 0x100_0000 && Pow256(5) == 0x100_0000_0000;
    assert Pow256(6) == 0x1_0000_0000_0000 && Pow256(7) == 0x100_0000_0000_0000;
  }

  lemma FieldRange(b: Bytes, off: nat, w: nat)
    requires off + w <= |b|
    ensures w == 1 ==> Field(b, off, w) < 0x100
    ensures w == 2 ==> Field(b, off, w) < 0x1_0000
    ensures w == 4 ==> Field(b, off, w) < 0x1_0000_0000
    ensures w == 8 ==> Field(b, off, w) < 0x1_0000_0000_0000_0000
  {
    Powers();
    LittleEndianInverse(b[off..off + w]);
  }

  lemma CodecByteRoundTrip(c: Codec, b: byte)
    ensures CodecFromByte(c.ToByte()) == Some(c)
    ensures CodecFromByte(b).Some? ==> CodecFromByte(b).value.ToByte() == b
  {
  }

  lemma MagicField(b: Bytes, m: Magic)
    requires |b| >= 4
    ensures b[0..4] == m <==> Field(b, 0, 4) == FromLittleEndian(m)
  {
    LittleEndianInverse(b[0..4]);
    LittleEndianInverse(m);
  }
}

/** Turning one encoded audio frame into the datagrams that carry it. */
module DataPlane {
  import opened Words
  import opened WireFields
  import opened AudioProtocol

  datatype Format = LegacyLas1 | V2Header

  const MAX_PCM24_FRAG_PAYLOAD_BYTES := 1392
  const MAX_FRAGS := 255

  /** Header duration of a packet: whole milliseconds, cut to 16 bits. */
  function HeaderDurationMs(frames: u16, sampleRate: u32): u16 {
    if sampleRate == 0 then 0 else (frames * 1000 / sampleRate) % TWO_16
  }

  function CommonFor(p: LegacyPacket, version: byte, headerLen: u16, flags: u16, sequence: u32,
                     codec: Codec, payloadLen: nat): Common {
    Common(UDP_AUDIO_MAGIC_V2, version, headerLen, flags, sequence, p.timestampMs, codec, p.channels,
           p.sampleRate, HeaderDurationMs(p.framesPerPacket, p.sampleRate), payloadLen % TWO_16)
  }

  function V2HeaderPreview(p: LegacyPacket, flags: u16, codec: Codec): HeaderV2 {
    HeaderV2(CommonFor(p, PROTOCOL_VERSION_V2, UDP_AUDIO_HEADER_V2_LEN, flags, p.sequence, codec, |p.payload|), 0)
  }

  function EncodePacket(p: LegacyPacket, plane: Format, flags: u16, codec: Codec): Bytes {
    match plane
    case LegacyLas1 => EncodeLegacy(p)
    case V2Header => EncodeV2(PacketV2(V2HeaderPreview(p, flags, codec), p.payload))
  }

  function FragCount(payloadLen: nat): (n: nat)
    ensures n >= 1
    ensures n > 1 ==> (n - 1) * MAX_PCM24_FRAG_PAYLOAD_BYTES < payloadLen
    ensures payloadLen <= n * MAX_PCM24_FRAG_PAYLOAD_BYTES
    ensures n <= MAX_FRAGS <==> payloadLen <= MAX_FRAGS * MAX_PCM24_FRAG_PAYLOAD_BYTES
  {
    if payloadLen == 0 then 1
    else (payloadLen + MAX_PCM24_FRAG_PAYLOAD_BYTES - 1) / MAX_PCM24_FRAG_PAYLOAD_BYTES
  }

  lemma ChunkStarts(payloadLen: nat, k: nat)
    requires k < FragCount(payloadLen)
    ensures k == 0 || k * MAX_PCM24_FRAG_PAYLOAD_BYTES < payloadLen
  {
  }

  /** Bytes k*1392 up to (k+1)*1392 of the payload, or up to its end. */
  function Chunk(payload: Bytes, k: nat): (c: Bytes)
    requires k == 0 || k * MAX_PCM24_FRAG_PAYLOAD_BYTES < |payload|
    ensures |c| <= MAX_PCM24_FRAG_PAYLOAD_BYTES
  {
    payload[k * MAX_PCM24_FRAG_PAYLOAD_BYTES..Min((k + 1) * MAX_PCM24_FRAG_PAYLOAD_BYTES, |payload|)]
  }

  function Fragment(p: LegacyPacket, flags: u16, codec: Codec, k: nat, sequence: u32): PacketV3
    requires k < FragCount(|p.payload|) <= MAX_FRAGS
  {
    ChunkStarts(|p.payload|, k);
    FragmentOf(p, flags, codec, k, FragCount(|p.payload|), sequence, Chunk(p.payload, k))
  }

  function FragmentOf(p: LegacyPacket, flags: u16, codec: Codec, k: byte, totalFrags: byte, sequence: u32,
                      chunk: Bytes): PacketV3
  {
    PacketV3(HeaderV3(CommonFor(p, PROTOCOL_VERSION_V3, UDP_AUDIO_HEADER_V3_LEN, flags, sequence, codec, |chunk|),
                      k, totalFrags, p.sequence),
             chunk)
  }

  /** The datagrams of one frame, and the sequence counter after them. */
  function EncodedPackets(p: LegacyPacket, plane: Format, flags: u16, codec: Codec, next: u32)
    : (r: (seq<Bytes>, u32))
  {
    if codec != Pcm24 then ([EncodePacket(p, plane, flags, codec)], ToU32(next + 1))
    else if plane.LegacyLas1? || FragCount(|p.payload|) > MAX_FRAGS then ([], next)
    else (Fragments(p, flags, codec, next, FragCount(|p.payload|)), ToU32(next + FragCount(|p.payload|)))
  }

  /** The first n fragment datagrams. */
  function Fragments(p: LegacyPacket, flags: u16, codec: Codec, next: u32, n: nat): (out: seq<Bytes>)
    requires n <= FragCount(|p.payload|) <= MAX_FRAGS
    ensures |out| == n
  {
    if n == 0 then []
    else Fragments(p, flags, codec, next, n - 1) + [EncodeV3(Fragment(p, flags, codec, n - 1, ToU32(next + n - 1)))]
  }

  lemma SuccessorWraps(n: int)
    ensures ToU32(ToU32(n) + 1) == ToU32(n + 1)
  {
  }

  /** One turn of the fragmentation loop, seen from the specification. */
  lemma NextFragment(p: LegacyPacket, flags: u16, codec: Codec, next: u32, k: nat)
    requires k < FragCount(|p.payload|) <= MAX_FRAGS
    ensures k == 0 || k * MAX_PCM24_FRAG_PAYLOAD_BYTES < |p.payload|
    ensures var f := FragmentOf(p, flags, codec, k, FragCount(|p.payload|), ToU32(next + k), Chunk(p.payload, k));
            Fragments(p, flags, codec, next, k + 1) == Fragments(p, flags, codec, next, k) + [EncodeV3(f)]
  {
    hide EncodeV3;
    ChunkStarts(|p.payload|, k);
  }

  method EncodePacketsByDataPlane(p: LegacyPacket, plane: Format, flags: u16, codec: Codec, nextSequence: u32)
    returns (out: seq<Bytes>, sequence: u32)
    ensures (out, sequence) == EncodedPackets(p, plane, flags, codec, nextSequence)
  {
    hide EncodeV3;
    sequence := nextSequence;
    if codec != Pcm24 {
      sequence := ToU32(sequence + 1);
      return [EncodePacket(p, plane, flags, codec)], sequence;
    }
    if plane.LegacyLas1? {
      return [], sequence;
    }
    var totalFrags := FragCount(|p.payload|);
    if totalFrags > MAX_FRAGS {
      return [], sequence;
    }
    out := [];
    for fragIndex := 0 to totalFrags
      invariant out == Fragments(p, flags, codec, nextSequence, fragIndex)
      invariant sequence == ToU32(nextSequence + fragIndex)
    {
      NextFragment(p, flags, codec, nextSequence, fragIndex);
      SuccessorWraps(nextSequence + fragIndex);
      var v3 := FragmentOf(p, flags, codec, fragIndex, totalFrags, sequence, Chunk(p.payload, fragIndex));
      sequence := ToU32(sequence + 1);
      out := out + [EncodeV3(v3)];
    }
  }
}

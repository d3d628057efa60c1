/** What the fragment datagrams of one PCM24 frame guarantee to a receiver. */
module Fragmentation {
  import opened Words
  import opened WireFields
  import opened AudioProtocol
  import opened DataPlane
  import ProtocolRoundTrips

  /** A frame whose fragments can be numbered in one byte. */
  predicate Fragmentable(p: LegacyPacket) {
    |p.payload| <= MAX_FRAGS * MAX_PCM24_FRAG_PAYLOAD_BYTES
  }

  function Datagrams(p: LegacyPacket, flags: u16, next: u32): seq<Bytes> {
    EncodedPackets(p, V2Header, flags, Pcm24, next).0
  }

  lemma {:induction false} FragmentsAt(p: LegacyPacket, flags: u16, next: u32, n: nat, k: nat)
    requires k < n <= FragCount(|p.payload|) <= MAX_FRAGS
    ensures Fragments(p, flags, Pcm24, next, n)[k] == EncodeV3(Fragment(p, flags, Pcm24, k, ToU32(next + k)))
  {
    hide EncodeV3;
    if k < n - 1 {
      FragmentsAt(p, flags, next, n - 1, k);
    }
  }

  /** The k-th datagram decodes, as version 3, to the k-th slice of the payload, under its own wire
      sequence number and the frame's logical one. */
  lemma DatagramDecodes(p: LegacyPacket, flags: u16, next: u32, k: nat)
    requires Fragmentable(p) && k < |Datagrams(p, flags, next)|
    ensures |Datagrams(p, flags, next)| == FragCount(|p.payload|)
    ensures var d := DecodeV3(Datagrams(p, flags, next)[k]);
            && d.Ok?
            && d.value.header.fragIndex == k
            && d.value.header.totalFrags == |Datagrams(p, flags, next)|
            && d.value.header.logicalSeq == p.sequence
            && d.value.header.common.sequence == ToU32(next + k)
            && d.value.header.common.codec == Pcm24
            && d.value.header.common.flags == flags
            && d.value.header.common.timestampMs == p.timestampMs
            && d.value.header.common.sampleRate == p.sampleRate
            && d.value.header.common.channels == p.channels
            && d.value.payload == Chunk(p.payload, k)
    ensures DetectKind(Datagrams(p, flags, next)[k]) == V2Lav2
  {
    hide EncodeV3, DecodeV3, DetectKind;
    var n := FragCount(|p.payload|);
    FragmentsAt(p, flags, next, n, k);
    var f := Fragment(p, flags, Pcm24, k, ToU32(next + k));
    ProtocolRoundTrips.V3DecodeOfEncode(f);
  }

  /** Frames too long for one byte of fragment numbers, and PCM24 on LAS1, produce nothing at all. */
  lemma EmptyExactlyWhen(p: LegacyPacket, plane: Format, flags: u16, codec: Codec, next: u32)
    ensures EncodedPackets(p, plane, flags, codec, next).0 == [] <==>
              codec == Pcm24 && (plane.LegacyLas1? || !Fragmentable(p))
    ensures EncodedPackets(p, plane, flags, codec, next).1 ==
              ToU32(next + |EncodedPackets(p, plane, flags, codec, next).0|)
  {
    hide EncodePacket;
  }

  /** Concatenation of the first n slices. */
  function Joined(payload: Bytes, n: nat): Bytes
    requires n <= FragCount(|payload|)
  {
    if n == 0 then []
    else
      ChunkStarts(|payload|, n - 1);
      Joined(payload, n - 1) + Chunk(payload, n - 1)
  }

  lemma {:induction false} JoinedIsPrefix(payload: Bytes, n: nat)
    requires n <= FragCount(|payload|)
    ensures Joined(payload, n) == payload[..Min(n * MAX_PCM24_FRAG_PAYLOAD_BYTES, |payload|)]
  {
    if n > 0 {
      ChunkStarts(|payload|, n - 1);
      JoinedIsPrefix(payload, n - 1);
    }
  }

  lemma WholePayload(payload: Bytes)
    ensures Joined(payload, FragCount(|payload|)) == payload
  {
    hide Joined, Chunk;
    var n := FragCount(|payload|);
    JoinedIsPrefix(payload, n);
    assert Min(n * MAX_PCM24_FRAG_PAYLOAD_BYTES, |payload|) == |payload|;
    assert payload[..|payload|] == payload;
  }

  /** Every cut falls on a whole stereo 24-bit sample pair. */
  lemma CutsAreAligned(p: LegacyPacket, k: nat)
    requires |p.payload| % 6 == 0 && k < FragCount(|p.payload|)
    ensures k * MAX_PCM24_FRAG_PAYLOAD_BYTES % 6 == 0
    ensures k == 0 || k * MAX_PCM24_FRAG_PAYLOAD_BYTES < |p.payload|
    ensures |Chunk(p.payload, k)| % 6 == 0
  {
    ChunkStarts(|p.payload|, k);
    assert k * MAX_PCM24_FRAG_PAYLOAD_BYTES == 6 * (232 * k);
  }

  // ---- a receiver ----

  /** The payload of the first arrived version 3 datagram with this fragment index. */
  function PayloadOf(arrived: seq<Bytes>, index: nat): Option<Bytes> {
    if arrived == [] then None
    else
      match DecodeV3(arrived[0])
      case Ok(f) => if f.header.fragIndex == index then Some(f.payload) else PayloadOf(arrived[1..], index)
      case Err(_) => PayloadOf(arrived[1..], index)
  }

  function Gather(arrived: seq<Bytes>, n: nat): Option<Bytes> {
    if n == 0 then Some([])
    else
      match (Gather(arrived, n - 1), PayloadOf(arrived, n - 1))
      case (Some(head), Some(last)) => Some(head + last)
      case _ => None
  }

  /** Reassembly by fragment index, knowing nothing but the datagrams. */
  function Reassemble(arrived: seq<Bytes>): Option<Bytes> {
    if arrived == [] then None
    else
      match DecodeV3(arrived[0])
      case Ok(f) => Gather(arrived, f.header.totalFrags)
      case Err(_) => None
  }

  lemma {:induction false} PayloadFound(p: LegacyPacket, flags: u16, next: u32, arrived: seq<Bytes>, k: nat)
    requires Fragmentable(p) && k < |Datagrams(p, flags, next)|
    requires forall d :: d in arrived ==> d in Datagrams(p, flags, next)
    requires Datagrams(p, flags, next)[k] in arrived
    ensures k == 0 || k * MAX_PCM24_FRAG_PAYLOAD_BYTES < |p.payload|
    ensures PayloadOf(arrived, k) == Some(Chunk(p.payload, k))
    decreases |arrived|
  {
    hide DecodeV3, Datagrams, Chunk;
    var all := Datagrams(p, flags, next);
    DatagramDecodes(p, flags, next, k);
    ChunkStarts(|p.payload|, k);
    assert arrived[0] in arrived && arrived[0] in all;
    var j :| 0 <= j < |all| && all[j] == arrived[0];
    DatagramDecodes(p, flags, next, j);
    if j != k {
      assert all[k] in arrived[1..];
      PayloadFound(p, flags, next, arrived[1..], k);
    }
  }

  lemma {:induction false} GatherFinds(p: LegacyPacket, flags: u16, next: u32, arrived: seq<Bytes>, n: nat)
    requires Fragmentable(p) && n <= |Datagrams(p, flags, next)| == FragCount(|p.payload|)
    requires forall d :: d in arrived <==> d in Datagrams(p, flags, next)
    ensures Gather(arrived, n) == Some(Joined(p.payload, n))
  {
    hide Datagrams, PayloadOf, Chunk;
    if n > 0 {
      GatherFinds(p, flags, next, arrived, n - 1);
      PayloadFound(p, flags, next, arrived, n - 1);
    }
  }

  lemma {:induction false} PayloadMissing(p: LegacyPacket, flags: u16, next: u32, arrived: seq<Bytes>, k: nat)
    requires Fragmentable(p) && k < |Datagrams(p, flags, next)|
    requires forall d :: d in arrived ==> d in Datagrams(p, flags, next)
    requires Datagrams(p, flags, next)[k] !in arrived
    ensures PayloadOf(arrived, k) == None
    decreases |arrived|
  {
    hide DecodeV3, Datagrams;
    if arrived != [] {
      var all := Datagrams(p, flags, next);
      assert arrived[0] in arrived && arrived[0] in all;
      var j :| 0 <= j < |all| && all[j] == arrived[0];
      DatagramDecodes(p, flags, next, j);
      PayloadMissing(p, flags, next, arrived[1..], k);
    }
  }

  lemma {:induction false} GatherMisses(arrived: seq<Bytes>, n: nat, k: nat)
    requires k < n && PayloadOf(arrived, k) == None
    ensures Gather(arrived, n) == None
  {
    hide PayloadOf;
    if k < n - 1 {
      GatherMisses(arrived, n - 1, k);
    }
  }

  /** Whatever the order in which datagrams of one frame arrive, and however often each is repeated,
      grouping them by fragment index rebuilds the frame exactly when none is missing. */
  lemma ArrivalRebuildsExactly(p: LegacyPacket, flags: u16, next: u32, arrived: seq<Bytes>)
    requires Fragmentable(p) && arrived != []
    requires forall d :: d in arrived ==> d in Datagrams(p, flags, next)
    ensures Reassemble(arrived) ==
              if forall d :: d in Datagrams(p, flags, next) ==> d in arrived then Some(p.payload) else None
  {
    hide DecodeV3, Gather, Joined, EncodedPackets;
    var all := Datagrams(p, flags, next);
    assert arrived[0] in arrived && arrived[0] in all;
    var j :| 0 <= j < |all| && all[j] == arrived[0];
    DatagramDecodes(p, flags, next, j);
    if forall d :: d in all ==> d in arrived {
      GatherFinds(p, flags, next, arrived, |all|);
      WholePayload(p.payload);
    } else {
      var d :| d in all && d !in arrived;
      var k :| 0 <= k < |all| && all[k] == d;
      PayloadMissing(p, flags, next, arrived, k);
      GatherMisses(arrived, |all|, k);
    }
  }
}

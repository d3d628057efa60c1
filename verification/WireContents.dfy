/** What the datagrams of Opus and high-resolution frames say to their receiver. */
module WireContents {
  import opened Words
  import opened DataPlane
  import opened AudioEncoding
  import opened EncodeWorker
  import P = AudioProtocol
  import Rates = FrameDurations
  import Fragmentation
  import Parser = LasPacketParser
  import ProtocolRoundTrips
  import R = RegistryModel

  lemma TwentyMilliseconds(frames: u16, rate: u32)
    requires Rates.EncoderRate(rate) && 50 * frames == rate
    ensures Rates.FramesReceived(frames, rate) == frames
  {
    hide Rates.FramesReceived;
    Rates.ExactAt(rate, 2);
  }

  /** An Opus frame reaches a version 2 client in one datagram, which the Android parser reads as that frame: its
      bytes, time stamp, rate, channels and marks, and its frame count for 20 ms at an encoder's rate. */
  lemma OpusArrives(f: EncodedFrame, start: nat, c: R.Snapshot)
    requires f.codec == P.Codec.Opus && |f.payload| < TWO_16 && c.plane.V2Header?
    ensures |WiresFor(f, start, c)| == 1 && WiresFor(f, start, c)[0].client == c
    ensures var parsed := Parser.Parse(WiresFor(f, start, c)[0].bytes);
            && parsed.Some?
            && parsed.value.codec == 3 && parsed.value.payload == f.payload
            && parsed.value.sequence == ToInt32(start) && parsed.value.timestampMs == ToInt64(f.ptsMs)
            && parsed.value.sampleRate == ToInt32(f.sampleRate) && parsed.value.channels == f.channels
            && FlagsTell(parsed.value.flags, f.isSilence, c)
            && (Rates.EncoderRate(f.sampleRate) && 50 * f.framesPerPacket == f.sampleRate ==>
                  parsed.value.framesPerPacket == f.framesPerPacket)
  {
    PiecesAre(f, start, c);
    var p := PacketOf(f, ToU32(start));
    var flags := V2Flags(p, c.modeChanged, c.firstPacket);
    FlagsMean(f, ToU32(start), c.modeChanged, c.firstPacket);
    hide P.EncodeV2, P.DecodeV2, Parser.Parse, V2Flags;
    var v2 := P.PacketV2(V2HeaderPreview(p, flags, f.codec), p.payload);
    assert WiresFor(f, start, c)[0].bytes == P.EncodeV2(v2);
    hide WiresFor;
    ProtocolRoundTrips.V2DecodeOfEncode(v2);
    Parser.AgreesOnV2(P.EncodeV2(v2));
    SignedOfWord(start);
    if Rates.EncoderRate(f.sampleRate) && 50 * f.framesPerPacket == f.sampleRate {
      TwentyMilliseconds(f.framesPerPacket, f.sampleRate);
    }
  }

  /** The k-th datagram of a high-resolution frame carries bytes 1392k and on of it, and all the frame's fields. */
  lemma HiresArrives(f: EncodedFrame, start: nat, c: R.Snapshot, k: nat)
    requires f.codec == P.Codec.Pcm24 && |f.payload| <= 354_960 && c.plane.V2Header? && k < |WiresFor(f, start, c)|
    ensures 1392 * (|WiresFor(f, start, c)| - 1) < |f.payload| <= 1392 * |WiresFor(f, start, c)|
         || (f.payload == [] && |WiresFor(f, start, c)| == 1)
    ensures var w := WiresFor(f, start, c)[k];
            var d := P.DecodeV3(w.bytes);
            && w.client == c && d.Ok?
            && d.value.header.fragIndex == k && d.value.header.totalFrags == |WiresFor(f, start, c)|
            && d.value.header.logicalSeq == start % TWO_32
            && d.value.header.common.sequence == (start + k) % TWO_32
            && d.value.header.common.codec == P.Codec.Pcm24
            && d.value.header.common.timestampMs == f.ptsMs
            && d.value.header.common.sampleRate == f.sampleRate && d.value.header.common.channels == f.channels
            && FlagsTell(d.value.header.common.flags, f.isSilence, c)
            && 1392 * k <= |f.payload|
            && d.value.payload == f.payload[1392 * k..Min(1392 * (k + 1), |f.payload|)]
  {
    var p := PacketOf(f, ToU32(start));
    var flags := V2Flags(p, c.modeChanged, c.firstPacket);
    FlagsMean(f, ToU32(start), c.modeChanged, c.firstPacket);
    NextWraps(start, k);
    hide P.DecodeV3, V2Flags, Fragments;
    assert PacketsFor(f, start, c) == Fragmentation.Datagrams(p, flags, ToU32(start));
    ChunkStarts(|f.payload|, k);
    hide Fragmentation.Datagrams, FragCount, PacketsFor;
    Fragmentation.DatagramDecodes(p, flags, ToU32(start), k);
  }

  /** Two clients share an encoder exactly when they agree in codec, mode and encoder rate; a rate that no encoder has
      counts as 48 kHz. */
  lemma GroupsExactly(a: R.Snapshot, b: R.Snapshot)
    ensures KeyOf(a) == KeyOf(b) <==>
              && a.codec == b.codec && a.mode == b.mode
              && (a.sampleRate == b.sampleRate
                  || (a.sampleRate !in {8000, 12000, 16000, 24000} && b.sampleRate !in {8000, 12000, 16000, 24000}))
    ensures KeyOf(a).codec == a.codec && KeyOf(a).mode == a.mode
    ensures KeyOf(a).rate == if a.sampleRate in {8000, 12000, 16000, 24000} then a.sampleRate else 48000
  {
  }
}

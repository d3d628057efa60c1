/** Frame counts travel through a whole-millisecond header field: what the receiver gets back. */
module FrameDurations {
  import opened Words
  import P = AudioProtocol
  import opened DataPlane
  import opened LasPackets
  import opened LasPacketParser
  import ProtocolRoundTrips

  /** The frame count a version 2 receiver computes for a packet that was sent with this one. */
  function FramesReceived(frames: u16, rate: u32): int {
    FramesOf(ToInt32(rate), HeaderDurationMs(frames, rate))
  }

  lemma ParsedFrames(p: P.LegacyPacket, flags: u16, codec: P.Codec)
    requires PlayableCodec(codec) && |p.payload| < TWO_16
    ensures Parse(EncodePacket(p, V2Header, flags, codec)).Some?
    ensures Parse(EncodePacket(p, V2Header, flags, codec)).value.framesPerPacket
         == FramesReceived(p.framesPerPacket, p.sampleRate)
    ensures Parse(EncodePacket(p, V2Header, flags, codec)).value.payload == p.payload
    ensures Parse(EncodePacket(p, V2Header, flags, codec)).value.sequence == ToInt32(p.sequence)
  {
    hide P.EncodeV2, P.DecodeV2, Parse;
    var v2 := P.PacketV2(V2HeaderPreview(p, flags, codec), p.payload);
    ProtocolRoundTrips.V2DecodeOfEncode(v2);
    AgreesOnV2(P.EncodeV2(v2));
  }

  /** The receiver loses the whole frames that do not fill a millisecond; it gets the sent count back
      exactly when the rate divides 1000 times it. The conditions: the rate fits a positive signed
      integer, and the duration fits its 16-bit field. */
  lemma FramesLost(frames: u16, rate: u32)
    requires 0 < rate < TWO_31 && frames * 1000 / rate < TWO_16
    ensures FramesReceived(frames, rate) == frames - CeilDiv((1000 * frames) % rate, 1000)
    ensures FramesReceived(frames, rate) == frames <==> (1000 * frames) % rate == 0
  {
    hide FramesOf, CeilDiv, HeaderDurationMs, ToInt32;
    var d, lost := frames * 1000 / rate, 1000 * frames % rate;
    assert rate * d + lost == 1000 * frames;
    HeaderOf(frames, rate);
    PositiveRate(rate);
    WholeMilliseconds(rate, d, frames, lost);
  }

  lemma PositiveRate(rate: u32)
    requires rate < TWO_31
    ensures ToInt32(rate) == rate
  {
  }

  lemma WholeMilliseconds(rate: int32, d: nat, frames: u16, lost: nat)
    requires rate > 0 && rate * d + lost == 1000 * frames
    ensures FramesOf(rate, d) == frames - CeilDiv(lost, 1000)
    ensures FramesOf(rate, d) == frames <==> lost == 0
  {
    hide FramesOf;
    CeilDivIsCeiling(lost, 1000);
    UncutFrames(rate, d, 1000 * frames - lost);
  }

  /** Milliseconds of audio a receiver attributes to d milliseconds sent at this rate. */
  function DurationReceived(rate: int32, d: u16): int {
    LasPacket(2, 33, 0, 0, 0, CODEC_PCM16, rate, 2, FramesOf(rate, d), []).FrameDurationMs()
  }

  /** From 1 kHz up the receiver's duration is the sent one or one less, and the sent one exactly
      when a whole number of frames fills it. */
  lemma DurationLosesAtMostOne(rate: int32, d: u16)
    requires 1000 <= rate && rate * d < TWO_31
    ensures DurationReceived(rate, d) == if rate * d % 1000 == 0 then d else d - 1
  {
    hide FramesOf;
    var samples := rate * d;
    UncutFrames(rate, d, samples);
    MillisecondsLost(rate, d, samples / 1000, samples % 1000);
  }

  lemma UncutFrames(rate: int32, d: nat, samples: int)
    requires 0 < rate && rate * d == samples < TWO_31
    ensures samples >= 0 && FramesOf(rate, d) == samples / 1000
  {
    if d == 0 {
      assert rate * d == 0;
    } else {
      MulAtLeast(d, rate);
    }
  }

  lemma MillisecondsLost(rate: int, d: nat, frames: nat, rest: nat)
    requires rate >= 1000 > rest && frames * 1000 + rest == rate * d
    ensures frames * 1000 / rate == if rest == 0 then d else d - 1
  {
    if rest == 0 {
      DivisionIs(frames * 1000, rate, d, 0);
    } else {
      assert (d - 1) * rate == rate * d - rate;
      DivisionIs(frames * 1000, rate, d - 1, rate - rest);
    }
  }

  predicate EncoderRate(rate: int) {
    rate in {8000, 12000, 16000, 24000, 48000}
  }

  function NormalizeEncoderSampleRate(rate: u32): (r: u32)
    ensures EncoderRate(r)
  {
    if EncoderRate(rate) then rate else 48000
  }

  /** PCM16 (10 ms) and Opus (20 ms) packets of the encoder, at every rate it is given, are received
      with their exact frame count and duration. */
  lemma EncoderPacketsAreExact(requested: u32, tens: nat)
    requires tens in {1, 2}
    ensures var rate := NormalizeEncoderSampleRate(requested);
            var frames := tens * (rate / 100);
            && HeaderDurationMs(frames, rate) == 10 * tens
            && FramesReceived(frames, rate) == frames
            && DurationReceived(rate, HeaderDurationMs(frames, rate)) == 10 * tens
  {
    ExactAt(NormalizeEncoderSampleRate(requested), tens);
  }

  lemma ExactAt(rate: u32, tens: nat)
    requires EncoderRate(rate) && tens in {1, 2}
    ensures HeaderDurationMs(tens * (rate / 100), rate) == 10 * tens
    ensures FramesReceived(tens * (rate / 100), rate) == tens * (rate / 100)
    ensures DurationReceived(rate, 10 * tens) == 10 * tens
  {
    hide FramesReceived, DurationReceived, HeaderDurationMs;
    var frames := tens * (rate / 100);
    FrameMilliseconds(rate, tens);
    FramesLost(frames, rate);
    DurationLosesAtMostOne(rate, 10 * tens);
    HeaderOf(frames, rate);
  }

  lemma HeaderOf(frames: u16, rate: u32)
    requires rate > 0 && frames * 1000 / rate < TWO_16
    ensures HeaderDurationMs(frames, rate) == frames * 1000 / rate
  {
    Uncut(frames * 1000 / rate);
  }

  lemma Uncut(n: nat)
    requires n < TWO_16
    ensures n % TWO_16 == n
  {
  }

  lemma FrameMilliseconds(rate: u32, tens: nat)
    requires EncoderRate(rate) && tens in {1, 2}
    ensures var frames := tens * (rate / 100);
            && 0 <= frames < TWO_16 && frames * 1000 / rate == 10 * tens && 1000 * frames % rate == 0
    ensures rate * (10 * tens) % 1000 == 0 && rate * (10 * tens) < TWO_31
  {
    if tens == 1 {
      assert rate / 100 * 1000 == 10 * rate;
      DivisionIs(rate / 100 * 1000, rate, 10, 0);
    } else {
      assert 2 * (rate / 100) * 1000 == 20 * rate;
      DivisionIs(2 * (rate / 100) * 1000, rate, 20, 0);
    }
  }

  /** At 44.1 kHz a 5 ms packet of 221 frames loses one frame. */
  lemma FramesLostAt44100()
    ensures FramesReceived(221, 44100) == 220
  {
    hide FramesReceived;
    FramesLost(221, 44100);
  }
}

/** From one captured frame to the encoded frames of one (codec, mode, rate) encoder. */
module AudioEncoding {
  import opened Words
  import opened WireFields
  import opened OpusFraming
  import opened PcmPayloads
  import P = AudioProtocol
  import Rates = FrameDurations
  import R = RegistryModel
  import W = Watchdog
  import EncoderProfiles

  const MAX_PCM24_OUTPUT_SAMPLE_RATE := 96_000

  datatype CaptureFrame = CaptureFrame(
    ptsMs: u64, sampleRate: u32, channels: nat, samples: seq<real>, isSilence: bool, peak: real, square: real)

  datatype EncodedFrame = EncodedFrame(
    ptsMs: u64, sampleRate: u32, channels: byte, framesPerPacket: u16, codec: P.Codec, isSilence: bool,
    payload: Bytes)

  /** What the Opus library answers to its n-th call: a packet, or a failure. Any answers are allowed. */
  type OpusLibrary = (nat, OpusInput) -> Option<Bytes>

  /** What the Opus library was last told, and for which mode. */
  datatype OpusSettings = OpusSettings(mode: R.AudioMode, bitrateBps: nat, complexity: nat, useVbr: bool)

  /** opus is None for other codecs, and when the library could not be initialised. */
  datatype Encoder = Encoder(
    codec: R.CodecSelection, rate: u32, forcePcm16: bool, opus: Option<OpusSettings>, pending: Pending, calls: nat)

  // Setting up.

  function ModeSettings(mode: R.AudioMode): OpusSettings {
    match mode
    case UltraLowLatency => OpusSettings(mode, 48000, 0, false)
    case LowLatency => OpusSettings(mode, 64000, 1, false)
    case Balanced => OpusSettings(mode, 96000, 2, true)
    case HighQuality => OpusSettings(mode, 128000, 4, true)
  }

  function TierSettings(tier: W.Tier, mode: R.AudioMode): OpusSettings {
    var p := EncoderProfiles.TierEncoderProfile(tier, mode);
    OpusSettings(mode, p.bitrateBps, p.complexity, p.useVbr)
  }

  function NewEncoder(codec: R.CodecSelection, mode: R.AudioMode, sampleRate: u32, opusStarts: bool): Encoder {
    Encoder(codec, Rates.NormalizeEncoderSampleRate(sampleRate), false,
            if codec.Opus? && opusStarts then Some(ModeSettings(mode)) else None, EMPTY, 0)
  }

  function Tuned(e: Encoder, tier: W.Tier, mode: R.AudioMode): Encoder {
    e.(forcePcm16 := EncoderProfiles.TierEncoderProfile(tier, mode).forcePcm16,
       opus := if e.opus.Some? then Some(TierSettings(tier, mode)) else None)
  }

  /** Only the last tier counts; and green, tuned or not, is how a new encoder starts. */
  lemma LastTierCounts(e: Encoder, first: W.Tier, last: W.Tier, mode: R.AudioMode, codec: R.CodecSelection, rate: u32,
                       starts: bool)
    ensures Tuned(Tuned(e, first, mode), last, mode) == Tuned(e, last, mode)
    ensures Tuned(NewEncoder(codec, mode, rate, starts), W.Green, mode) == NewEncoder(codec, mode, rate, starts)
  {
    assert TierSettings(W.Green, mode) == ModeSettings(mode);
  }

  /** An Opus call for another mode sets the encoder up for that mode first. */
  function Switched(opus: Option<OpusSettings>, mode: R.AudioMode, called: bool): Option<OpusSettings> {
    if opus.Some? && called && opus.value.mode != mode then Some(ModeSettings(mode)) else opus
  }

  // Encoding.

  function Pcm16Frame(f: CaptureFrame, fixed: seq<real>, rate: u32): EncodedFrame {
    EncodedFrame(f.ptsMs, rate, 2, Max(rate / 100, 1) % TWO_16, P.Codec.Pcm16, f.isSilence, Pcm16Payload(fixed))
  }

  /** PCM24 keeps the capture rate up to 96 kHz; above that it takes the stereo stream resampled to 96 kHz. */
  function Pcm24Frame(f: CaptureFrame, resampled: seq<real>): EncodedFrame {
    var inRate := Max(f.sampleRate, 1);
    var rate := Min(inRate, MAX_PCM24_OUTPUT_SAMPLE_RATE);
    var (samples, channels) := if rate != inRate then (resampled, 2) else (f.samples, Max(f.channels, 1));
    var frames := |samples| / channels;
    EncodedFrame(f.ptsMs, rate, 2, frames % TWO_16, P.Codec.Pcm24, f.isSilence, Pcm24Payload(samples, channels, frames))
  }

  function OpusFrame(input: OpusInput, packet: Bytes, rate: u32): EncodedFrame {
    EncodedFrame(input.ptsMs, rate, 2, Max(rate / 50, 1) % TWO_16, P.Codec.Opus, input.isSilence, packet)
  }

  datatype Drain = Drain(left: Pending, calls: nat, frames: seq<EncodedFrame>, failed: bool)

  /** Encodes whole 20 ms frames until none is left or the library fails. */
  function DrainOpus(s: Pending, size: nat, calls: nat, rate: u32, opus: OpusLibrary): Drain
    requires size > 0
    decreases |s.samples|
  {
    if |s.samples| < size || s.ptsMs.None? then Drain(s, calls, [], false)
    else
      match opus(calls, FrameOf(s, size))
      case None => Drain(Rest(s, size), calls + 1, [], true)
      case Some(packet) =>
        var later := DrainOpus(Rest(s, size), size, calls + 1, rate, opus);
        later.(frames := [OpusFrame(FrameOf(s, size), packet, rate)] + later.frames)
  }

  function BlockOf(f: CaptureFrame, fixed: seq<real>): Block {
    Block(f.ptsMs, fixed, f.isSilence, f.peak, f.square)
  }

  /** fixed is the frame at the encoder's rate (10 ms of stereo); resampled is only read above 96 kHz. */
  function EncoderStep(e: Encoder, f: CaptureFrame, mode: R.AudioMode, fixed: seq<real>, resampled: seq<real>,
                       opus: OpusLibrary): (Encoder, seq<EncodedFrame>)
  {
    if e.codec.Pcm24? && !e.forcePcm16 then (e, [Pcm24Frame(f, resampled)])
    else if e.codec.Opus? && !e.forcePcm16 && e.opus.Some? then
      var d := DrainOpus(Pushed(e.pending, BlockOf(f, fixed)), SamplesPer20Ms(e.rate), e.calls, e.rate, opus);
      (e.(opus := Switched(e.opus, mode, d.calls > e.calls), pending := d.left, calls := d.calls),
       if d.failed then [Pcm16Frame(f, fixed, e.rate)] else d.frames)
    else (e, [Pcm16Frame(f, fixed, e.rate)])
  }

  lemma {:induction false} DrainedFramesAreOpus(s: Pending, size: nat, calls: nat, rate: u32, opus: OpusLibrary)
    requires size > 0
    ensures forall k :: 0 <= k < |DrainOpus(s, size, calls, rate, opus).frames| ==>
              DrainOpus(s, size, calls, rate, opus).frames[k].codec == P.Codec.Opus
    decreases |s.samples|
  {
    if |s.samples| >= size && s.ptsMs.Some? {
      DrainedFramesAreOpus(Rest(s, size), size, calls + 1, rate, opus);
    }
  }

  /** What an encoder for the selected codec may emit; forced down, it emits PCM16 alone. */
  predicate Allowed(selected: R.CodecSelection, forcePcm16: bool, codec: P.Codec) {
    match codec
    case Pcm16 => !selected.Pcm24? || forcePcm16
    case Opus => selected.Opus? && !forcePcm16
    case Pcm24 => selected.Pcm24? && !forcePcm16
    case F32 => false
  }

  /** The codec of every frame, for every Opus library; PCM16 and PCM24 encoders emit one frame per frame. */
  lemma CodecsAreAllowed(e: Encoder, f: CaptureFrame, mode: R.AudioMode, fixed: seq<real>, resampled: seq<real>,
                         opus: OpusLibrary)
    ensures var out := EncoderStep(e, f, mode, fixed, resampled, opus).1;
            && (forall k :: 0 <= k < |out| ==> Allowed(e.codec, e.forcePcm16, out[k].codec))
            && (!e.codec.Opus? || e.forcePcm16 || e.opus.None? ==> |out| == 1)
  {
    assert Pcm16Frame(f, fixed, e.rate).codec == P.Codec.Pcm16;
    assert Pcm24Frame(f, resampled).codec == P.Codec.Pcm24;
    hide DrainOpus, Pcm16Frame, Pcm24Frame, Pushed;
    DrainedFramesAreOpus(Pushed(e.pending, BlockOf(f, fixed)), SamplesPer20Ms(e.rate), e.calls, e.rate, opus);
  }

  /** PCM24 payloads hold whole stereo pairs, so fragments are cut between pairs. */
  lemma Pcm24PayloadIsAligned(f: CaptureFrame, resampled: seq<real>)
    ensures |Pcm24Frame(f, resampled).payload| % 6 == 0
    ensures Pcm24Frame(f, resampled).sampleRate <= MAX_PCM24_OUTPUT_SAMPLE_RATE
    ensures 1 <= f.sampleRate <= MAX_PCM24_OUTPUT_SAMPLE_RATE ==> Pcm24Frame(f, resampled).sampleRate == f.sampleRate
    ensures f.sampleRate <= MAX_PCM24_OUTPUT_SAMPLE_RATE && f.channels > 0 ==>
              |Pcm24Frame(f, resampled).payload| == 6 * (|f.samples| / f.channels)
  {
  }

  // A whole stream through one Opus encoder.

  datatype Input = Input(frame: CaptureFrame, fixed: seq<real>)

  function EncodeAll(e: Encoder, mode: R.AudioMode, inputs: seq<Input>, opus: OpusLibrary)
    : (Encoder, seq<EncodedFrame>)
  {
    if inputs == [] then (e, [])
    else
      var (before, sent) := EncodeAll(e, mode, inputs[..|inputs| - 1], opus);
      var last := inputs[|inputs| - 1];
      var (after, more) := EncoderStep(before, last.frame, mode, last.fixed, [], opus);
      (after, sent + more)
  }

  function Blocks(inputs: seq<Input>): (blocks: seq<Block>)
    ensures |blocks| == |inputs|
    ensures forall k :: 0 <= k < |inputs| ==> blocks[k] == BlockOf(inputs[k].frame, inputs[k].fixed)
  {
    seq(|inputs|, k requires 0 <= k < |inputs| => BlockOf(inputs[k].frame, inputs[k].fixed))
  }

  ghost predicate NeverFails(opus: OpusLibrary) {
    forall n, input :: opus(n, input).Some?
  }

  /** The frames for the k-th, (k+1)-th, ... call of a library that never fails. */
  function Packets(inputs: seq<OpusInput>, calls: nat, rate: u32, opus: OpusLibrary): seq<EncodedFrame>
    requires NeverFails(opus)
  {
    if inputs == [] then []
    else
      var n := |inputs| - 1;
      Packets(inputs[..n], calls, rate, opus) + [OpusFrame(inputs[n], opus(calls + n, inputs[n]).value, rate)]
  }

  lemma {:induction false} PacketsSplit(a: seq<OpusInput>, b: seq<OpusInput>, calls: nat, rate: u32, opus: OpusLibrary)
    requires NeverFails(opus)
    ensures Packets(a + b, calls, rate, opus) == Packets(a, calls, rate, opus) + Packets(b, calls + |a|, rate, opus)
  {
    if b == [] {
      assert a + b == a;
    } else {
      var n := |b| - 1;
      assert (a + b)[..|a| + n] == a + b[..n];
      hide OpusFrame, NeverFails;
      PacketsSplit(a, b[..n], calls, rate, opus);
    }
  }

  lemma {:induction false} DrainOpusIs(s: Pending, size: nat, calls: nat, rate: u32, opus: OpusLibrary)
    requires size > 0 && NeverFails(opus)
    ensures var frames := Drained(s, size).frames;
            DrainOpus(s, size, calls, rate, opus)
              == Drain(Drained(s, size).left, calls + |frames|, Packets(frames, calls, rate, opus), false)
    decreases |s.samples|
  {
    if |s.samples| >= size && s.ptsMs.Some? {
      var first, rest := FrameOf(s, size), Drained(Rest(s, size), size).frames;
      DrainOpusIs(Rest(s, size), size, calls + 1, rate, opus);
      assert [first][..0] == [];
      PacketsSplit([first], rest, calls, rate, opus);
      hide FrameOf, Rest, OpusFrame;
    }
  }

  /** One captured frame, seen from the pairing buffer. */
  lemma OpusStep(e: Encoder, mode: R.AudioMode, input: Input, opus: OpusLibrary)
    requires NeverFails(opus) && e.codec.Opus? && !e.forcePcm16 && e.opus.Some?
    ensures var d := Drained(Pushed(e.pending, BlockOf(input.frame, input.fixed)), SamplesPer20Ms(e.rate));
            EncoderStep(e, input.frame, mode, input.fixed, [], opus)
              == (e.(opus := Switched(e.opus, mode, d.frames != []), pending := d.left, calls := e.calls + |d.frames|),
                  Packets(d.frames, e.calls, e.rate, opus))
  {
    hide Drained, DrainOpus, Pushed, BlockOf, SamplesPer20Ms, Packets, NeverFails, Pcm16Frame, Pcm24Frame, Switched;
    DrainOpusIs(Pushed(e.pending, BlockOf(input.frame, input.fixed)), SamplesPer20Ms(e.rate), e.calls, e.rate, opus);
  }

  function FreshOpus(rate: u32, settings: OpusSettings): Encoder {
    Encoder(R.Opus, rate, false, Some(settings), EMPTY, 0)
  }

  lemma FedOneMore(size: nat, inputs: seq<Input>)
    requires size > 0 && inputs != []
    ensures var n := |inputs| - 1;
            var before := FeedAll(size, Blocks(inputs[..n]));
            var last := Drained(Pushed(before.left, BlockOf(inputs[n].frame, inputs[n].fixed)), size);
            FeedAll(size, Blocks(inputs)) == Outcome(last.left, before.frames + last.frames)
  {
    var n := |inputs| - 1;
    assert Blocks(inputs)[..n] == Blocks(inputs[..n]);
    hide Drained, Pushed, BlockOf;
  }

  lemma EncodedOneMore(e: Encoder, mode: R.AudioMode, inputs: seq<Input>, opus: OpusLibrary, before: Encoder,
                       sent: seq<EncodedFrame>, after: Encoder, more: seq<EncodedFrame>)
    requires inputs != [] && EncodeAll(e, mode, inputs[..|inputs| - 1], opus) == (before, sent)
    requires var last := inputs[|inputs| - 1];
             EncoderStep(before, last.frame, mode, last.fixed, [], opus) == (after, more)
    ensures EncodeAll(e, mode, inputs, opus) == (after, sent + more)
  {
    hide EncoderStep;
  }

  /** The encoder's Opus stream is the library applied, call by call, to the paired 10 ms blocks; the first call
      for another mode than the encoder's sets it up for that mode. */
  ghost predicate StreamIs(e: Encoder, mode: R.AudioMode, inputs: seq<Input>, opus: OpusLibrary)
    requires NeverFails(opus)
  {
    var fed := FeedAll(SamplesPer20Ms(e.rate), Blocks(inputs));
    EncodeAll(e, mode, inputs, opus)
      == (e.(opus := Switched(e.opus, mode, fed.frames != []), pending := fed.left, calls := |fed.frames|),
          Packets(fed.frames, 0, e.rate, opus))
  }

  lemma SwitchedOnce(opus: Option<OpusSettings>, mode: R.AudioMode, before: bool, after: bool)
    ensures Switched(Switched(opus, mode, before), mode, after) == Switched(opus, mode, before || after)
  {
  }

  lemma {:induction false} StreamGrows(rate: u32, settings: OpusSettings, mode: R.AudioMode, inputs: seq<Input>,
                                       opus: OpusLibrary)
    requires NeverFails(opus) && inputs != []
    requires StreamIs(FreshOpus(rate, settings), mode, inputs[..|inputs| - 1], opus)
    ensures StreamIs(FreshOpus(rate, settings), mode, inputs, opus)
  {
    hide FeedAll, Drained, EncoderStep, Pushed, Blocks, BlockOf, SamplesPer20Ms, Packets, NeverFails, EncodeAll,
         Switched;
    var n, size, start := |inputs| - 1, SamplesPer20Ms(rate), FreshOpus(rate, settings);
    var before := FeedAll(size, Blocks(inputs[..n]));
    var e := start.(opus := Switched(start.opus, mode, before.frames != []),
                     pending := before.left, calls := |before.frames|);
    var last := Drained(Pushed(before.left, BlockOf(inputs[n].frame, inputs[n].fixed)), size);
    assert e.opus.Some? by { SwitchedStays(start.opus, mode, before.frames != []); }
    FedOneMore(size, inputs);
    OpusStep(e, mode, inputs[n], opus);
    SwitchedOnce(start.opus, mode, before.frames != [], last.frames != []);
    PacketsSplit(before.frames, last.frames, 0, rate, opus);
    EncodedOneMore(start, mode, inputs, opus, e, Packets(before.frames, 0, rate, opus),
                   e.(opus := Switched(e.opus, mode, last.frames != []),
                      pending := last.left, calls := e.calls + |last.frames|),
                   Packets(last.frames, |before.frames|, rate, opus));
  }

  lemma SwitchedStays(opus: Option<OpusSettings>, mode: R.AudioMode, called: bool)
    ensures Switched(opus, mode, called).Some? <==> opus.Some?
  {
  }

  lemma {:induction false} OpusStream(rate: u32, settings: OpusSettings, mode: R.AudioMode, inputs: seq<Input>,
                                      opus: OpusLibrary)
    requires NeverFails(opus)
    ensures StreamIs(FreshOpus(rate, settings), mode, inputs, opus)
  {
    if inputs != [] {
      OpusStream(rate, settings, mode, inputs[..|inputs| - 1], opus);
      StreamGrows(rate, settings, mode, inputs, opus);
    } else {
      assert Blocks(inputs) == [];
    }
  }

  /** n captured frames give n/2 Opus packets; packet k encodes frames 2k and 2k+1 together. */
  lemma {:induction false} OpusPacketsPair(rate: u32, settings: OpusSettings, mode: R.AudioMode, inputs: seq<Input>,
                                           opus: OpusLibrary, k: nat)
    requires NeverFails(opus)
    requires forall j :: 0 <= j < |inputs| ==> 2 * |inputs[j].fixed| == SamplesPer20Ms(rate)
    ensures |EncodeAll(FreshOpus(rate, settings), mode, inputs, opus).1| == |inputs| / 2
    ensures k < |inputs| / 2 ==>
              var pair := Pair(BlockOf(inputs[2 * k].frame, inputs[2 * k].fixed),
                               BlockOf(inputs[2 * k + 1].frame, inputs[2 * k + 1].fixed));
              EncodeAll(FreshOpus(rate, settings), mode, inputs, opus).1[k]
                == OpusFrame(pair, opus(k, pair).value, rate)
  {
    var size, blocks := SamplesPer20Ms(rate), Blocks(inputs);
    OpusStream(rate, settings, mode, inputs, opus);
    AlignedBlocksPair(size, blocks);
    var frames := FeedAll(size, blocks).frames;
    hide EncodeAll, FeedAll, SamplesPer20Ms, Pair, OpusFrame, Packets, BlockOf, FreshOpus, Switched;
    PacketCount(frames, rate, opus);
    if k < |inputs| / 2 {
      PacketAt(frames, rate, opus, k);
    }
  }

  lemma {:induction false} PacketCount(inputs: seq<OpusInput>, rate: u32, opus: OpusLibrary)
    requires NeverFails(opus)
    ensures |Packets(inputs, 0, rate, opus)| == |inputs|
  {
    if inputs != [] {
      PacketCount(inputs[..|inputs| - 1], rate, opus);
    }
  }

  lemma {:induction false} PacketAt(inputs: seq<OpusInput>, rate: u32, opus: OpusLibrary, k: nat)
    requires NeverFails(opus) && k < |inputs|
    ensures |Packets(inputs, 0, rate, opus)| == |inputs|
    ensures Packets(inputs, 0, rate, opus)[k] == OpusFrame(inputs[k], opus(k, inputs[k]).value, rate)
  {
    var n := |inputs| - 1;
    PacketCount(inputs[..n], rate, opus);
    if k < n {
      PacketAt(inputs[..n], rate, opus, k);
    }
  }

  method BuildPcm16(f: CaptureFrame, fixed: seq<real>, rate: u32) returns (frame: EncodedFrame)
    ensures frame == Pcm16Frame(f, fixed, rate)
  {
    var payload := EncodePcm16(fixed);
    frame := EncodedFrame(f.ptsMs, rate, 2, Max(rate / 100, 1) % TWO_16, P.Codec.Pcm16, f.isSilence, payload);
  }

  method BuildPcm24(f: CaptureFrame, resampled: seq<real>) returns (frame: EncodedFrame)
    ensures frame == Pcm24Frame(f, resampled)
  {
    var inRate := Max(f.sampleRate, 1);
    var rate := Min(inRate, MAX_PCM24_OUTPUT_SAMPLE_RATE);
    var samples, channels := f.samples, Max(f.channels, 1);
    if rate != inRate {
      samples, channels := resampled, 2;
    }
    var payload := EncodePcm24(samples, channels);
    frame := EncodedFrame(f.ptsMs, rate, 2, |samples| / channels % TWO_16, P.Codec.Pcm24, f.isSilence, payload);
  }

  class AudioFrameEncoder {
    const codec: R.CodecSelection
    const outputRate: u32
    const buffer: OpusFrameBuffer
    var opus: Option<OpusSettings>
    var forcePcm16Fallback: bool
    var calls: nat

    ghost predicate Valid()
      reads this
    {
      buffer.samplesPer20Ms == SamplesPer20Ms(outputRate)
    }

    ghost function State(): Encoder
      reads this, buffer
    {
      Encoder(codec, outputRate, forcePcm16Fallback, opus, buffer.State(), calls)
    }

    /** opusStarts says whether the library could be initialised. */
    constructor (codec: R.CodecSelection, initialMode: R.AudioMode, sampleRate: u32, opusStarts: bool)
      ensures Valid() && fresh(buffer)
      ensures State() == NewEncoder(codec, initialMode, sampleRate, opusStarts)
    {
      var rate := Rates.NormalizeEncoderSampleRate(sampleRate);
      this.codec, outputRate, forcePcm16Fallback, calls := codec, rate, false, 0;
      opus := if codec.Opus? && opusStarts then Some(ModeSettings(initialMode)) else None;
      buffer := new OpusFrameBuffer(rate);
    }

    /** A red tier forces PCM16, any other lets the selected codec through again; Opus gets the tier's settings. */
    method ApplyTierProfile(tier: W.Tier, mode: R.AudioMode)
      modifies this`forcePcm16Fallback, this`opus
      ensures State() == Tuned(old(State()), tier, mode)
      ensures forcePcm16Fallback <==> tier == W.Red
    {
      var profile := EncoderProfiles.TierEncoderProfile(tier, mode);
      forcePcm16Fallback := profile.forcePcm16;
      if opus.Some? {
        opus := Some(ModeSettings(mode));
        opus := Some(opus.value.(bitrateBps := profile.bitrateBps));
        opus := Some(opus.value.(complexity := profile.complexity));
        opus := Some(opus.value.(useVbr := profile.useVbr));
      }
    }

    method Encode(f: CaptureFrame, mode: R.AudioMode, fixed: seq<real>, resampled: seq<real>, library: OpusLibrary)
      returns (out: seq<EncodedFrame>)
      requires Valid()
      modifies this, buffer
      ensures Valid() && (State(), out) == EncoderStep(old(State()), f, mode, fixed, resampled, library)
    {
      if codec.Pcm24? && !forcePcm16Fallback {
        var frame := BuildPcm24(f, resampled);
        return [frame];
      }
      if codec.Opus? && !forcePcm16Fallback && opus.Some? {
        buffer.Push10Ms(BlockOf(f, fixed));
        var failed;
        out, failed := DrainBuffer(mode, library);
        if !failed {
          return;
        }
      }
      var frame := BuildPcm16(f, fixed, outputRate);
      out := [frame];
    }

    ghost function Remaining(library: OpusLibrary): Drain
      requires Valid()
      reads this, buffer
    {
      DrainOpus(buffer.State(), SamplesPer20Ms(outputRate), calls, outputRate, library)
    }

    /** Encodes one more frame, unless none is left or the library fails. */
    method EncodeNext(mode: R.AudioMode, library: OpusLibrary) returns (frame: Option<EncodedFrame>, failed: bool)
      requires Valid()
      modifies this`calls, this`opus, buffer
      ensures Valid()
      ensures opus == Switched(old(opus), mode, calls > old(calls)) && calls >= old(calls)
      ensures frame.None? ==> old(Remaining(library)) == Drain(buffer.State(), calls, [], failed)
      ensures frame.Some? ==>
                && |buffer.samples| < old(|buffer.samples|)
                && old(Remaining(library)) == Remaining(library).(frames := [frame.value] + Remaining(library).frames)
    {
      hide FrameOf, OpusFrame;
      ghost var s := buffer.State();
      var input := buffer.Pop20Ms();
      if input.None? {
        return None, false;
      }
      assert input.value == FrameOf(s, SamplesPer20Ms(outputRate));
      if opus.Some? && opus.value.mode != mode {
        opus := Some(ModeSettings(mode));
      }
      var packet := library(calls, input.value);
      calls := calls + 1;
      if packet.None? {
        return None, true;
      }
      frame, failed := Some(OpusFrame(input.value, packet.value, outputRate)), false;
    }

    method DrainBuffer(mode: R.AudioMode, library: OpusLibrary) returns (out: seq<EncodedFrame>, failed: bool)
      requires Valid()
      modifies this`calls, this`opus, buffer
      ensures Valid()
      ensures opus == Switched(old(opus), mode, calls > old(calls))
      ensures old(Remaining(library)) == Drain(buffer.State(), calls, old(Remaining(library)).frames, failed)
      ensures out == old(Remaining(library)).frames
    {
      hide DrainOpus, Valid, Switched;
      out := [];
      ghost var goal, first, count := Remaining(library), opus, calls;
      NotYetSwitched(opus, mode);
      while true
        invariant Valid() && calls >= count
        invariant opus == Switched(first, mode, calls > count)
        invariant Remains(goal, out, Remaining(library))
        decreases |buffer.samples|
      {
        ghost var between := calls;
        var frame;
        frame, failed := EncodeNext(mode, library);
        SwitchedOnce(first, mode, between > count, calls > between);
        if frame.None? {
          return;
        }
        out := out + [frame.value];
      }
    }
  }

  lemma NotYetSwitched(opus: Option<OpusSettings>, mode: R.AudioMode)
    ensures Switched(opus, mode, false) == opus
  {
  }

  /** The drain whose frames so far are done still has these frames to go. */
  predicate Remains(goal: Drain, done: seq<EncodedFrame>, rest: Drain) {
    && goal.left == rest.left && goal.calls == rest.calls && goal.failed == rest.failed
    && goal.frames == done + rest.frames
  }
}

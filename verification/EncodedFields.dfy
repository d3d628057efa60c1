/** What an encoded frame says of the captures in it, field by field, for every answer of the Opus library. */
module EncodedFields {
  import opened Words
  import opened WireFields
  import opened OpusFraming
  import opened PcmPayloads
  import opened AudioEncoding
  import opened OpusTiers
  import P = AudioProtocol
  import Rates = FrameDurations
  import R = RegistryModel
  import W = Watchdog

  // Opus.

  /** A 20 ms stereo packet with these bytes; at the encoder's own rates its frame count is exact. */
  predicate IsOpusPacket(f: EncodedFrame, ptsMs: u64, isSilence: bool, packet: Bytes, rate: u32) {
    && f.codec == P.Codec.Opus && f.payload == packet && f.ptsMs == ptsMs && f.isSilence == isSilence
    && f.sampleRate == rate && f.channels == 2
    && (Rates.EncoderRate(rate) ==> f.framesPerPacket * 50 == rate)
  }

  lemma OpusFrameIs(input: OpusInput, packet: Bytes, rate: u32)
    ensures IsOpusPacket(OpusFrame(input, packet, rate), input.ptsMs, input.isSilence, packet, rate)
  {
    FiftiethFits(rate);
  }

  lemma FiftiethFits(rate: u32)
    ensures Rates.EncoderRate(rate) ==> Max(rate / 50, 1) % TWO_16 * 50 == rate
  {
  }

  /** The packet is the library's n-th answer, given both captures' samples in order. */
  predicate JoinsCaptures(f: EncodedFrame, a: Input, b: Input, n: nat, rate: u32, opus: OpusLibrary) {
    var input := OpusInput(
      ptsMs := a.frame.ptsMs, samples := a.fixed + b.fixed, isSilence := a.frame.isSilence && b.frame.isSilence,
      peak := if a.frame.peak < b.frame.peak then b.frame.peak else a.frame.peak,
      meanSquare := (a.frame.square + b.frame.square) / 2.0);
    && opus(n, input).Some?
    && IsOpusPacket(f, a.frame.ptsMs, a.frame.isSilence && b.frame.isSilence, opus(n, input).value, rate)
  }

  lemma PairJoins(a: Input, b: Input, n: nat, rate: u32, opus: OpusLibrary)
    requires NeverFails(opus)
    ensures var pair := Pair(BlockOf(a.frame, a.fixed), BlockOf(b.frame, b.fixed));
            JoinsCaptures(OpusFrame(pair, opus(n, pair).value, rate), a, b, n, rate, opus)
  {
    var pair := Pair(BlockOf(a.frame, a.fixed), BlockOf(b.frame, b.fixed));
    OpusFrameIs(pair, opus(n, pair).value, rate);
    hide OpusFrame, IsOpusPacket;
  }

  /** n captures give n/2 packets; packet k is the library's k-th answer, given captures 2k and 2k+1 together. */
  lemma StreamCarries(rate: u32, settings: OpusSettings, mode: R.AudioMode, inputs: seq<Input>, opus: OpusLibrary,
                      k: nat)
    requires NeverFails(opus)
    requires forall j :: 0 <= j < |inputs| ==> 2 * |inputs[j].fixed| == SamplesPer20Ms(rate)
    ensures var sent := EncodeAll(FreshOpus(rate, settings), mode, inputs, opus).1;
            && |sent| == |inputs| / 2
            && (k < |sent| ==> JoinsCaptures(sent[k], inputs[2 * k], inputs[2 * k + 1], k, rate, opus))
  {
    hide EncodeAll, FreshOpus, SamplesPer20Ms, OpusFrame, Pair, BlockOf, NeverFails, JoinsCaptures;
    OpusPacketsPair(rate, settings, mode, inputs, opus, k);
    if k < |inputs| / 2 {
      PairJoins(inputs[2 * k], inputs[2 * k + 1], k, rate, opus);
    }
  }

  /** Across tiers: of the captures outside Red, packet k joins the 2k-th and the one after it. */
  lemma TiersCarry(rate: u32, settings: OpusSettings, mode: R.AudioMode, turns: seq<Turn>, opus: OpusLibrary, k: nat)
    requires NeverFails(opus)
    requires forall i :: 0 <= i < |turns| ==> 2 * |turns[i].input.fixed| == SamplesPer20Ms(rate)
    ensures var sent := OpusOnly(EncodeTurns(FreshOpus(rate, settings), mode, turns, opus).1);
            && |sent| == |Fed(turns)| / 2
            && (k < |sent| ==>
                  var i, j := Fed(turns)[2 * k], Fed(turns)[2 * k + 1];
                  JoinsCaptures(sent[k], turns[i].input, turns[j].input, k, rate, opus))
  {
    PacketsAcrossTiers(rate, settings, mode, turns, opus, k);
    hide EncodeTurns, FreshOpus, SamplesPer20Ms, OpusFrame, Pair, BlockOf, NeverFails, JoinsCaptures, Fed, OpusOnly;
    if k < |Fed(turns)| / 2 {
      PairJoins(turns[Fed(turns)[2 * k]].input, turns[Fed(turns)[2 * k + 1]].input, k, rate, opus);
    }
  }

  // Uncompressed frames.

  /** A 10 ms stereo frame of 16-bit samples. */
  predicate IsPcm16(f: EncodedFrame, ptsMs: u64, isSilence: bool, samples: seq<real>, rate: u32) {
    && f.codec == P.Codec.Pcm16 && f.ptsMs == ptsMs && f.isSilence == isSilence
    && f.sampleRate == rate && f.channels == 2
    && (Rates.EncoderRate(rate) ==> f.framesPerPacket * 100 == rate)
    && |f.payload| == 2 * |samples|
    && forall k :: 0 <= k < |samples| ==> FromLittle16(f.payload[2 * k..2 * k + 2]) == Quantised(samples[k], 32767)
  }

  lemma Pcm16FrameIs(f: CaptureFrame, fixed: seq<real>, rate: u32)
    ensures IsPcm16(Pcm16Frame(f, fixed, rate), f.ptsMs, f.isSilence, fixed, rate)
  {
    Pcm16Size(fixed);
    hide Pcm16Payload, FromLittle16, Quantised;
    forall k | 0 <= k < |fixed|
      ensures FromLittle16(Pcm16Payload(fixed)[2 * k..2 * k + 2]) == Quantised(fixed[k], 32767)
    {
      Pcm16Carries(fixed, k);
    }
  }

  /** The left and the right sample of every whole frame, as 24-bit numbers. */
  predicate HoldsStereo(payload: Bytes, samples: seq<real>, channels: nat)
    requires channels > 0
  {
    var n := |samples| / channels;
    && |payload| == 6 * n
    && forall j :: 0 <= j < n ==>
         && FromBig24(payload[6 * j..6 * j + 3]) == Quantised(Left(samples, channels, j), 8388607)
         && FromBig24(payload[6 * j + 3..6 * j + 6]) == Quantised(Right(samples, channels, j), 8388607)
  }

  /** Frame j starts at sample j * channels: the left side is its first sample, the right one its second, or the first
      again when there is no second. */
  lemma SidesAre(samples: seq<real>, channels: nat, j: nat)
    requires FrameIn(samples, channels, j)
    ensures 0 <= j * channels && j * channels + channels <= |samples|
    ensures Left(samples, channels, j) == samples[j * channels]
    ensures Right(samples, channels, j) == if channels == 1 then samples[j * channels] else samples[j * channels + 1]
  {
    FrameFits(samples, channels, j);
  }

  lemma HeldStereo(samples: seq<real>, channels: nat)
    requires channels > 0
    ensures HoldsStereo(Pcm24Payload(samples, channels, |samples| / channels), samples, channels)
  {
    var n := |samples| / channels;
    var payload := Pcm24Payload(samples, channels, n);
    hide Pcm24Payload, FromBig24, Quantised, Left, Right;
    forall j | 0 <= j < n
      ensures FromBig24(payload[6 * j..6 * j + 3]) == Quantised(Left(samples, channels, j), 8388607)
      ensures FromBig24(payload[6 * j + 3..6 * j + 6]) == Quantised(Right(samples, channels, j), 8388607)
    {
      Pcm24Carries(samples, channels, n, j);
      assert payload[6 * j..6 * j + 6][..3] == payload[6 * j..6 * j + 3];
      assert payload[6 * j..6 * j + 6][3..] == payload[6 * j + 3..6 * j + 6];
    }
  }

  lemma WholeCount(n: nat, size: nat)
    requires size == 6 * n && size < 6 * TWO_16
    ensures 6 * (n % TWO_16) == size
  {
  }

  /** 24-bit stereo at the capture's own rate up to 96 kHz, above it the stream resampled to 96 kHz. The frame count
      is that of the payload while it fits its 16 bits. */
  lemma Pcm24FrameIs(f: CaptureFrame, resampled: seq<real>, samples: seq<real>, channels: nat, rate: u32)
    requires rate == if f.sampleRate == 0 then 1 else if f.sampleRate > 96000 then 96000 else f.sampleRate
    requires samples == if f.sampleRate > 96000 then resampled else f.samples
    requires channels == if f.sampleRate > 96000 then 2 else if f.channels == 0 then 1 else f.channels
    ensures var g := Pcm24Frame(f, resampled);
            && g.codec == P.Codec.Pcm24 && g.ptsMs == f.ptsMs && g.isSilence == f.isSilence
            && g.sampleRate == rate && g.channels == 2
            && (|g.payload| < 6 * TWO_16 ==> 6 * g.framesPerPacket == |g.payload|)
            && HoldsStereo(g.payload, samples, channels)
  {
    HeldStereo(samples, channels);
    hide HoldsStereo, Pcm24Payload;
    var n := |samples| / channels;
    var g := Pcm24Frame(f, resampled);
    assert g.payload == Pcm24Payload(samples, channels, n) && g.framesPerPacket == n % TWO_16;
    assert g.ptsMs == f.ptsMs && g.isSilence == f.isSilence && g.sampleRate == rate && g.channels == 2
        && g.codec == P.Codec.Pcm24;
    hide Pcm24Frame;
    if |g.payload| < 6 * TWO_16 {
      WholeCount(n, |g.payload|);
    }
  }

  // One capture, whatever the library answers.

  ghost predicate SomeCallFails(frames: seq<OpusInput>, calls: nat, opus: OpusLibrary) {
    exists j :: 0 <= j < |frames| && opus(calls + j, frames[j]).None?
  }

  /** Packet j is the library's answer to its (calls + j)-th call. */
  predicate AreAnswers(sent: seq<EncodedFrame>, frames: seq<OpusInput>, calls: nat, rate: u32, opus: OpusLibrary) {
    && |sent| == |frames|
    && forall j :: 0 <= j < |sent| ==>
         && opus(calls + j, frames[j]).Some?
         && IsOpusPacket(sent[j], frames[j].ptsMs, frames[j].isSilence, opus(calls + j, frames[j]).value, rate)
  }

  lemma FailsLater(first: OpusInput, rest: seq<OpusInput>, calls: nat, opus: OpusLibrary)
    ensures SomeCallFails([first] + rest, calls, opus) <==>
              opus(calls, first).None? || SomeCallFails(rest, calls + 1, opus)
  {
    var all := [first] + rest;
    if j :| 0 <= j < |rest| && opus(calls + 1 + j, rest[j]).None? {
      assert all[j + 1] == rest[j] && calls + (j + 1) == calls + 1 + j;
    }
    if j :| 0 <= j < |all| && opus(calls + j, all[j]).None? {
      assert j > 0 ==> all[j] == rest[j - 1] && calls + j == calls + 1 + (j - 1);
    }
    if opus(calls, first).None? {
      assert all[0] == first && calls + 0 == calls;
    }
  }

  lemma AnswersLater(f: EncodedFrame, sent: seq<EncodedFrame>, first: OpusInput, rest: seq<OpusInput>, calls: nat,
                     rate: u32, opus: OpusLibrary)
    requires AreAnswers(sent, rest, calls + 1, rate, opus) && opus(calls, first).Some?
    requires IsOpusPacket(f, first.ptsMs, first.isSilence, opus(calls, first).value, rate)
    ensures AreAnswers([f] + sent, [first] + rest, calls, rate, opus)
  {
    hide IsOpusPacket;
    var all, frames := [f] + sent, [first] + rest;
    forall j | 0 <= j < |all|
      ensures opus(calls + j, frames[j]).Some?
      ensures IsOpusPacket(all[j], frames[j].ptsMs, frames[j].isSilence, opus(calls + j, frames[j]).value, rate)
    {
      if j > 0 {
        assert all[j] == sent[j - 1] && frames[j] == rest[j - 1] && calls + j == calls + 1 + (j - 1);
      }
    }
  }

  lemma {:induction false} DrainAnswers(s: Pending, size: nat, calls: nat, rate: u32, opus: OpusLibrary)
    requires size > 0
    ensures var d, frames := DrainOpus(s, size, calls, rate, opus), Drained(s, size).frames;
            && (d.failed <==> SomeCallFails(frames, calls, opus))
            && (!d.failed ==> AreAnswers(d.frames, frames, calls, rate, opus))
    decreases |s.samples|
  {
    if |s.samples| >= size && s.ptsMs.Some? {
      var first := FrameOf(s, size);
      var rest := Drained(Rest(s, size), size).frames;
      DrainAnswers(Rest(s, size), size, calls + 1, rate, opus);
      FailsLater(first, rest, calls, opus);
      if opus(calls, first).Some? {
        OpusFrameIs(first, opus(calls, first).value, rate);
        var later := DrainOpus(Rest(s, size), size, calls + 1, rate, opus);
        hide FrameOf, Rest, OpusFrame, IsOpusPacket, AreAnswers, SomeCallFails;
        if !later.failed {
          AnswersLater(OpusFrame(first, opus(calls, first).value, rate), later.frames, first, rest, calls, rate, opus);
        }
      }
    }
  }

  /**
   * What an encoder sends for one capture. Opus: the library's answers to the 20 ms frames now complete; but if it
   * fails on one of them, the capture itself as PCM16 and nothing else. A forced or failed encoder, and a PCM16 one,
   * send the capture as PCM16.
   */
  lemma StepCarries(e: Encoder, f: CaptureFrame, mode: R.AudioMode, fixed: seq<real>, resampled: seq<real>,
                    opus: OpusLibrary, ready: seq<OpusInput>)
    requires ready == Drained(Pushed(e.pending, BlockOf(f, fixed)), SamplesPer20Ms(e.rate)).frames
    ensures var sent, usesOpus := EncoderStep(e, f, mode, fixed, resampled, opus).1,
                                  e.codec.Opus? && !e.forcePcm16 && e.opus.Some?;
            && (usesOpus && !SomeCallFails(ready, e.calls, opus) ==> AreAnswers(sent, ready, e.calls, e.rate, opus))
            && (e.codec.Pcm24? && !e.forcePcm16 ==> sent == [Pcm24Frame(f, resampled)])
            && (!(usesOpus && !SomeCallFails(ready, e.calls, opus)) && !(e.codec.Pcm24? && !e.forcePcm16) ==>
                  |sent| == 1 && IsPcm16(sent[0], f.ptsMs, f.isSilence, fixed, e.rate))
  {
    Pcm16FrameIs(f, fixed, e.rate);
    DrainAnswers(Pushed(e.pending, BlockOf(f, fixed)), SamplesPer20Ms(e.rate), e.calls, e.rate, opus);
    hide Pcm16Frame, Pcm24Frame, DrainOpus, Drained, Pushed, BlockOf, SamplesPer20Ms, IsPcm16, AreAnswers,
         SomeCallFails;
  }

  // Setting up.

  /** What the Opus library is told, tier by tier and mode by mode. */
  predicate Told(s: OpusSettings, mode: R.AudioMode, kbps: nat, complexity: nat, useVbr: bool) {
    s.mode == mode && s.bitrateBps == 1000 * kbps && s.complexity == complexity && s.useVbr == useVbr
  }

  /** A new encoder: normalised rate, nothing pending, PCM16 not forced, Opus set up for its mode if it is asked for
      and starts. */
  lemma NewEncoderIs(codec: R.CodecSelection, mode: R.AudioMode, sampleRate: u32, opusStarts: bool)
    ensures var e := NewEncoder(codec, mode, sampleRate, opusStarts);
            && e.codec == codec && Rates.EncoderRate(e.rate) && !e.forcePcm16 && e.calls == 0
            && (Rates.EncoderRate(sampleRate) ==> e.rate == sampleRate)
            && (!Rates.EncoderRate(sampleRate) ==> e.rate == 48000)
            && e.pending.samples == [] && e.pending.ptsMs == None
            && (e.opus.Some? <==> codec == R.Opus && opusStarts)
            && (e.opus.Some? ==>
                  match mode
                  case UltraLowLatency => Told(e.opus.value, mode, 48, 0, false)
                  case LowLatency => Told(e.opus.value, mode, 64, 1, false)
                  case Balanced => Told(e.opus.value, mode, 96, 2, true)
                  case HighQuality => Told(e.opus.value, mode, 128, 4, true))
  {
  }

  /** A tier forces PCM16 exactly when it is Red, and sets Opus up; nothing else of the encoder moves. */
  lemma TunedIs(e: Encoder, tier: W.Tier, mode: R.AudioMode)
    ensures var t := Tuned(e, tier, mode);
            && t == e.(forcePcm16 := t.forcePcm16, opus := t.opus)
            && (t.forcePcm16 <==> tier == W.Red)
            && (t.opus.Some? <==> e.opus.Some?)
            && (t.opus.Some? ==>
                  match (tier, mode)
                  case (Red, _) => Told(t.opus.value, mode, 64, 1, false)
                  case (_, UltraLowLatency) => Told(t.opus.value, mode, 48, 0, false)
                  case (_, LowLatency) => Told(t.opus.value, mode, 64, 1, false)
                  case (Yellow, _) => Told(t.opus.value, mode, 96, 2, false)
                  case (Green, Balanced) => Told(t.opus.value, mode, 96, 2, true)
                  case (Green, HighQuality) => Told(t.opus.value, mode, 128, 4, true))
  {
  }

  /** A call for another mode than the one Opus is set up for sets it up anew; otherwise nothing changes. */
  lemma SwitchedIs(s: OpusSettings, mode: R.AudioMode, called: bool)
    ensures var t := Switched(Some(s), mode, called);
            && t.Some?
            && (called && s.mode != mode ==>
                  match mode
                  case UltraLowLatency => Told(t.value, mode, 48, 0, false)
                  case LowLatency => Told(t.value, mode, 64, 1, false)
                  case Balanced => Told(t.value, mode, 96, 2, true)
                  case HighQuality => Told(t.value, mode, 128, 4, true))
            && (!called || s.mode == mode ==> t.value == s)
  {
  }
}

/** The loudness normaliser object: gain fields that change per sample, and a byte array rewritten in place. */
module LoudnessNormalizer {
  import opened Words
  import opened WireFields
  import opened PcmPayloads
  import opened Loudness
  import opened LoudnessRuns

  class PlaybackLoudnessNormalizer {
    const targetRms: real
    var requestedEnabled: bool
    var mode: string
    var sampleRate: int32
    var channels: int32
    var currentGain: real
    var targetGain: real
    var rampRemainingSamples: nat
    var lastAnalysisAtMs: int
    var consecutiveHighGainWindows: nat

    ghost function State(): Normalizer
      reads this
    {
      Normalizer(requestedEnabled, mode, sampleRate, channels, currentGain, targetGain, rampRemainingSamples,
                 lastAnalysisAtMs, consecutiveHighGainWindows)
    }

    constructor (targetRms: real)
      ensures State() == NEW && this.targetRms == targetRms
    {
      this.targetRms := targetRms;
      requestedEnabled, mode, sampleRate, channels := false, "balanced", 48000, 2;
      currentGain, targetGain, rampRemainingSamples := 1.0, 1.0, 0;
      lastAnalysisAtMs, consecutiveHighGainWindows := 0, 0;
    }

    predicate IsActive()
      reads this
    {
      requestedEnabled && mode != "low_latency"
    }

    method ResetGain()
      modifies this
      ensures State() == Reset(old(State()))
    {
      currentGain, targetGain, rampRemainingSamples := 1.0, 1.0, 0;
      lastAnalysisAtMs, consecutiveHighGainWindows := 0, 0;
    }

    method SetEnabled(enabled: bool)
      modifies this
      ensures State() == Step(old(State()), targetRms, Op.SetEnabled(enabled))
    {
      requestedEnabled := enabled;
      if !IsActive() {
        ResetGain();
      }
    }

    method SetMode(nextMode: string)
      modifies this
      ensures State() == Step(old(State()), targetRms, Op.SetMode(nextMode))
    {
      mode := nextMode;
      if !IsActive() {
        ResetGain();
      }
    }

    method Configure(sampleRate: int32, channels: int32)
      modifies this
      ensures State() == Step(old(State()), targetRms, Op.Configure(sampleRate, channels))
    {
      this.sampleRate, this.channels := AtLeastOne(sampleRate), AtLeastOne(channels);
    }

    /** The square root comes from the caller: rms is exact. */
    method ComputeTargetGain(input: array<byte>, rms: real) returns (gain: real)
      requires IsRms(input[..], rms)
      ensures gain == TargetGain(input[..], rms, targetRms)
    {
      hide SampleAt;
      var sumSquares, samples := 0.0, 0;
      while 2 * samples + 1 < input.Length
        invariant samples <= SampleCount(input[..])
        invariant sumSquares == SumSquares(input[..], samples)
      {
        var normalized := SampleAt(input[..], samples) as real / PCM16_FULL_SCALE;
        sumSquares := sumSquares + normalized * normalized;
        samples := samples + 1;
      }
      if samples == 0 || sumSquares <= 0.0 {
        return 1.0;
      }
      gain := Within(targetRms / if rms < 0.000001 then 0.000001 else rms, MIN_GAIN, MAX_GAIN);
    }

    method ApplyHighGainHysteresis()
      modifies this`targetGain, this`consecutiveHighGainWindows
      ensures consecutiveHighGainWindows == WindowsAfter(old(consecutiveHighGainWindows), old(targetGain))
      ensures targetGain == Capped(consecutiveHighGainWindows, old(targetGain))
    {
      if targetGain >= HIGH_GAIN_THRESHOLD {
        consecutiveHighGainWindows := consecutiveHighGainWindows + 1;
      } else {
        consecutiveHighGainWindows := 0;
      }
      if consecutiveHighGainWindows >= HIGH_GAIN_HOLD_WINDOWS && targetGain > HIGH_GAIN_CAP {
        targetGain := HIGH_GAIN_CAP;
      }
    }

    method AnalyseIfDue(input: array<byte>, nowMs: int, rms: real)
      requires IsRms(input[..], rms)
      modifies this
      ensures State() == Analysed(old(State()), input[..], nowMs, rms, targetRms)
    {
      hide TargetGain, IsRms, RampSampleCount;
      if lastAnalysisAtMs == 0 || ToInt64(nowMs - lastAnalysisAtMs) >= ANALYSIS_INTERVAL_MS {
        targetGain := ComputeTargetGain(input, rms);
        rampRemainingSamples := RampSampleCount(sampleRate, channels);
        lastAnalysisAtMs := nowMs;
        ApplyHighGainHysteresis();
      }
    }

    method FindPeak(input: array<byte>) returns (peak: nat)
      ensures peak == Peak(input[..], SampleCount(input[..]))
    {
      hide SampleAt;
      peak := 0;
      var k := 0;
      while 2 * k + 1 < input.Length
        invariant k <= SampleCount(input[..])
        invariant peak == Peak(input[..], k)
      {
        var magnitude := Abs(SampleAt(input[..], k));
        if magnitude > peak {
          peak := magnitude;
        }
        k := k + 1;
      }
    }

    method ApplyPeakAheadGuard(input: array<byte>)
      modifies this`targetGain
      ensures State() == GuardedFor(old(State()), input[..])
    {
      hide Peak;
      var peak := FindPeak(input);
      if peak <= 0 {
        return;
      }
      var effectiveGain := if currentGain > targetGain then currentGain else targetGain;
      var projected := peak as real * effectiveGain;
      if projected > SOFT_CLIP_THRESHOLD {
        var safeGain := SOFT_CLIP_THRESHOLD / peak as real;
        if safeGain < targetGain {
          targetGain := if safeGain < MIN_GAIN then MIN_GAIN else safeGain;
        }
      }
    }

    method NextGain() returns (gain: real)
      modifies this`currentGain, this`rampRemainingSamples
      ensures State().Ramp() == Advanced(old(State().Ramp()), targetGain) && gain == currentGain
    {
      if rampRemainingSamples <= 0 {
        currentGain := targetGain;
        return currentGain;
      }
      var step := (targetGain - currentGain) / rampRemainingSamples as real;
      currentGain := currentGain + step;
      rampRemainingSamples := rampRemainingSamples - 1;
      gain := currentGain;
    }

    /** Rewrites the k-th sample with the next gain of the ramp. */
    method GainSample(out: array<byte>, k: nat, ghost input: Bytes, ghost start: Ramp)
      requires k < SampleCount(input) && IsGainedUpTo(input, start, targetGain, out[..], k)
      requires State().Ramp() == After(start, targetGain, k)
      modifies this`currentGain, this`rampRemainingSamples, out
      ensures IsGainedUpTo(input, start, targetGain, out[..], k + 1)
      ensures State().Ramp() == After(start, targetGain, k + 1)
    {
      ghost var before := out[..];
      StillOriginal(input, start, targetGain, before, k);
      hide SampleAt, IsGainedUpTo, Advanced, Gained;
      var sample := SampleAt(out[..], k);
      var gain := NextGain();
      var pair := Little16(Stage(Gained(sample, gain)));
      out[2 * k], out[2 * k + 1] := pair[0], pair[1];
      hide Stage, Little16;
      assert out[..] == before[2 * k := pair[0]][2 * k + 1 := pair[1]];
      OneMoreGained(input, start, targetGain, before, k, pair);
    }

    method ApplyGain(input: array<byte>) returns (out: array<byte>)
      modifies this`currentGain, this`rampRemainingSamples
      ensures fresh(out)
      ensures IsGained(input[..], old(State().Ramp()), targetGain, out[..])
      ensures State() == Ramped(old(State()), SampleCount(input[..]))
    {
      out := new byte[input.Length](i requires 0 <= i < input.Length reads input => input[i]);
      ghost var bytes, start := input[..], State().Ramp();
      assert out[..] == bytes;
      GainingStarts(bytes, start, targetGain);
      hide IsGainedUpTo, After;
      var k := 0;
      while 2 * k + 1 < out.Length
        invariant k <= SampleCount(bytes) && out.Length == |bytes|
        invariant State().Ramp() == After(start, targetGain, k)
        invariant IsGainedUpTo(bytes, start, targetGain, out[..], k)
      {
        GainSample(out, k, bytes, start);
        k := k + 1;
      }
      GainingEnds(bytes, start, targetGain, out[..]);
    }

    /** The square root of the block's mean square comes from the caller: rms is exact. */
    method Process(input: array<byte>, nowMs: int, rms: real) returns (out: array<byte>)
      requires IsRms(input[..], rms)
      modifies this
      ensures input[..] == old(input[..])
      ensures State() == Step(old(State()), targetRms, Op.Process(input[..], nowMs, rms))
      ensures IsOutput(old(State()), input[..], nowMs, rms, targetRms, out[..])
      ensures Processes(old(State()), input[..]) ==> fresh(out)
    {
      if !IsActive() || input.Length < 2 {
        return input;
      }
      AnalyseIfDue(input, nowMs, rms);
      ApplyPeakAheadGuard(input);
      out := ApplyGain(input);
    }
  }

  /** The first n samples are gained, the rest is the input. */
  ghost predicate IsGainedUpTo(input: Bytes, r: Ramp, target: real, output: Bytes, n: nat) {
    && |output| == |input| && n <= SampleCount(input)
    && (forall k :: 0 <= k < n ==> output[2 * k..2 * k + 2] == Little16(Stage(Raw(input, r, target, k))))
    && output[2 * n..] == input[2 * n..]
  }

  lemma GainingStarts(input: Bytes, r: Ramp, target: real)
    ensures IsGainedUpTo(input, r, target, input, 0) && After(r, target, 0) == r
  {
  }

  lemma GainingEnds(input: Bytes, r: Ramp, target: real, output: Bytes)
    requires IsGainedUpTo(input, r, target, output, SampleCount(input))
    ensures IsGained(input, r, target, output)
  {
  }

  /** A sample not reached yet is still the input's. */
  lemma StillOriginal(input: Bytes, r: Ramp, target: real, output: Bytes, k: nat)
    requires k < SampleCount(input) && IsGainedUpTo(input, r, target, output, k)
    ensures |output| == |input| && SampleAt(output, k) == SampleAt(input, k)
  {
    hide Stage, Raw, Little16, FromLittle16;
    assert output[2 * k..][0] == input[2 * k..][0] && output[2 * k..][1] == input[2 * k..][1];
  }

  lemma OneMoreGained(input: Bytes, r: Ramp, target: real, output: Bytes, k: nat, pair: Bytes)
    requires k < SampleCount(input) && IsGainedUpTo(input, r, target, output, k)
    requires |output| == |input| && |pair| == 2 && pair == Little16(Stage(Raw(input, r, target, k)))
    ensures IsGainedUpTo(input, r, target, output[2 * k := pair[0]][2 * k + 1 := pair[1]], k + 1)
  {
    hide Stage, Raw, Little16;
    var after := output[2 * k := pair[0]][2 * k + 1 := pair[1]];
    forall j | 0 <= j < k + 1 ensures after[2 * j..2 * j + 2] == Little16(Stage(Raw(input, r, target, j))) {
      if j < k {
        assert after[2 * j..2 * j + 2] == output[2 * j..2 * j + 2];
      } else {
        assert after[2 * j..2 * j + 2] == pair;
      }
    }
    assert after[2 * (k + 1)..] == output[2 * k..][2..];
    assert input[2 * (k + 1)..] == input[2 * k..][2..];
  }
}

/** The normaliser's state over whole runs of calls. */
module LoudnessRuns {
  import opened Words
  import opened WireFields
  import opened PcmPayloads
  import opened Loudness
  import LasPackets

  datatype Normalizer = Normalizer(
    enabled: bool,
    mode: string,
    sampleRate: int32,
    channels: int32,
    gain: real,
    target: real,
    rampLeft: nat,
    lastAnalysisMs: int,
    highGainWindows: nat)
  {
    predicate Active() {
      enabled && mode != "low_latency"
    }

    function Ramp(): Ramp {
      Loudness.Ramp(gain, rampLeft)
    }
  }

  const NEW := Normalizer(false, "balanced", 48000, 2, 1.0, 1.0, 0, 0, 0)

  function Reset(s: Normalizer): Normalizer {
    s.(gain := 1.0, target := 1.0, rampLeft := 0, lastAnalysisMs := 0, highGainWindows := 0)
  }

  function ResetIfIdle(s: Normalizer): Normalizer {
    if s.Active() then s else Reset(s)
  }

  function AtLeastOne(n: int32): (r: int32)
    ensures r >= 1
  {
    Max(n, 1)
  }

  /** Samples in 100 ms, counted in 32-bit arithmetic that may wrap, and never less than one. */
  function RampSampleCount(sampleRate: int32, channels: int32): (n: nat)
    ensures n >= 1
  {
    Max(LasPackets.TruncDiv(ToInt32(Max(ToInt32(sampleRate * channels), 1) * RAMP_MS), 1000), 1)
  }

  /** Without wrap-around the ramp lasts 100 ms to within one sample, and one sample where that is longer. */
  lemma RampLasts100Ms(sampleRate: int32, channels: int32)
    requires 1 <= sampleRate * channels && sampleRate * channels * RAMP_MS < TWO_31
    ensures var n := RampSampleCount(sampleRate, channels);
            && sampleRate * channels * RAMP_MS < (n + 1) * 1000
            && if sampleRate * channels < 10 then n == 1 else n * 1000 <= sampleRate * channels * RAMP_MS
  {
    var rate := sampleRate * channels;
    SmallIsItself(rate);
    SmallIsItself(rate * RAMP_MS);
    hide ToInt32;
  }

  lemma SmallIsItself(n: int)
    requires 0 <= n < TWO_31
    ensures ToInt32(n) == n
  {
  }

  function WindowsAfter(windows: nat, target: real): nat {
    if target >= HIGH_GAIN_THRESHOLD then windows + 1 else 0
  }

  function Capped(windows: nat, target: real): real {
    if windows >= HIGH_GAIN_HOLD_WINDOWS && target > HIGH_GAIN_CAP then HIGH_GAIN_CAP else target
  }

  predicate Due(s: Normalizer, now: int) {
    s.lastAnalysisMs == 0 || ToInt64(now - s.lastAnalysisMs) >= ANALYSIS_INTERVAL_MS
  }

  /** A due analysis sets a new target, restarts the ramp and counts windows of high gain. */
  function Analysed(s: Normalizer, input: Bytes, now: int, rms: real, targetRms: real): Normalizer {
    if !Due(s, now) then s
    else
      var target := TargetGain(input, rms, targetRms);
      var windows := WindowsAfter(s.highGainWindows, target);
      s.(target := Capped(windows, target), rampLeft := RampSampleCount(s.sampleRate, s.channels),
         lastAnalysisMs := now, highGainWindows := windows)
  }

  function GuardedFor(s: Normalizer, input: Bytes): Normalizer {
    s.(target := Guarded(s.gain, s.target, Peak(input, SampleCount(input))))
  }

  function Ramped(s: Normalizer, n: nat): Normalizer {
    var r := After(s.Ramp(), s.target, n);
    s.(gain := r.gain, rampLeft := r.left)
  }

  predicate Processes(s: Normalizer, input: Bytes) {
    s.Active() && |input| >= 2
  }

  /** The state in which the gain is applied. */
  function Prepared(s: Normalizer, input: Bytes, now: int, rms: real, targetRms: real): Normalizer {
    GuardedFor(Analysed(s, input, now, rms, targetRms), input)
  }

  function Processed(s: Normalizer, input: Bytes, now: int, rms: real, targetRms: real): Normalizer {
    if Processes(s, input) then Ramped(Prepared(s, input, now, rms, targetRms), SampleCount(input)) else s
  }

  /** The output of the gain stage: each sample gained in turn, a trailing odd byte untouched. */
  ghost predicate IsGained(input: Bytes, r: Ramp, target: real, output: Bytes) {
    && |output| == |input|
    && (forall k :: 0 <= k < SampleCount(input) ==>
          output[2 * k..2 * k + 2] == Little16(Stage(Raw(input, r, target, k))))
    && output[2 * SampleCount(input)..] == input[2 * SampleCount(input)..]
  }

  ghost predicate IsOutput(s: Normalizer, input: Bytes, now: int, rms: real, targetRms: real, output: Bytes) {
    if Processes(s, input) then
      var p := Prepared(s, input, now, rms, targetRms);
      IsGained(input, p.Ramp(), p.target, output)
    else output == input
  }

  /** The bytes written are the gained samples: nothing wraps on the way to 16 bits. */
  lemma OutputCarries(input: Bytes, r: Ramp, target: real, output: Bytes, k: nat)
    requires IsGained(input, r, target, output) && k < SampleCount(input)
    ensures SampleAt(output, k) == Stage(Raw(input, r, target, k))
  {
    var v := Stage(Raw(input, r, target, k));
    hide Stage, Raw;
    StageFits(Raw(input, r, target, k));
    Little16RoundTrip(v);
    var pair := output[2 * k..2 * k + 2];
    assert [output[2 * k], output[2 * k + 1]] == pair;
    hide FromLittle16, Little16;
  }

  // Runs.

  datatype Op =
    | SetEnabled(enabled: bool)
    | SetMode(mode: string)
    | Configure(sampleRate: int32, channels: int32)
    | Process(input: Bytes, now: int, rms: real)

  function Step(s: Normalizer, targetRms: real, op: Op): Normalizer {
    match op
    case SetEnabled(enabled) => ResetIfIdle(s.(enabled := enabled))
    case SetMode(mode) => ResetIfIdle(s.(mode := mode))
    case Configure(sampleRate, channels) => s.(sampleRate := AtLeastOne(sampleRate), channels := AtLeastOne(channels))
    case Process(input, now, rms) => Processed(s, input, now, rms, targetRms)
  }

  function Run(s: Normalizer, targetRms: real, ops: seq<Op>): Normalizer {
    if ops == [] then s else Step(Run(s, targetRms, ops[..|ops| - 1]), targetRms, ops[|ops| - 1])
  }

  /** Gains stay in range, and a third window of high gain in a row has its target capped. */
  predicate Inv(s: Normalizer) {
    && GainInRange(s.gain) && GainInRange(s.target)
    && (s.highGainWindows >= HIGH_GAIN_HOLD_WINDOWS ==> s.target <= HIGH_GAIN_CAP)
    && s.sampleRate >= 1 && s.channels >= 1
  }

  lemma AnalysisKeeps(s: Normalizer, input: Bytes, now: int, rms: real, targetRms: real)
    requires Inv(s)
    ensures Inv(Analysed(s, input, now, rms, targetRms))
  {
    hide SumSquares, Due, RampSampleCount;
    TargetInRange(input, rms, targetRms);
    hide TargetGain;
  }

  lemma TargetInRange(input: Bytes, rms: real, targetRms: real)
    ensures GainInRange(TargetGain(input, rms, targetRms))
  {
    hide SumSquares;
  }

  lemma ProcessKeeps(s: Normalizer, input: Bytes, now: int, rms: real, targetRms: real)
    requires Inv(s)
    ensures Inv(Prepared(s, input, now, rms, targetRms))
    ensures Inv(Processed(s, input, now, rms, targetRms))
    ensures var p := Prepared(s, input, now, rms, targetRms);
            Level(p.target, Peak(input, SampleCount(input))) <= SOFT_CLIP_THRESHOLD
  {
    var a := Analysed(s, input, now, rms, targetRms);
    AnalysisKeeps(s, input, now, rms, targetRms);
    hide Analysed, Peak, Guarded, After, Level, SampleAt;
    PeakIsLargest(input, SampleCount(input));
    GuardHolds(a.gain, a.target, Peak(input, SampleCount(input)));
    var p := GuardedFor(a, input);
    RampStaysBetween(p.Ramp(), p.target, SampleCount(input));
  }

  lemma StepKeeps(s: Normalizer, targetRms: real, op: Op)
    requires Inv(s)
    ensures Inv(Step(s, targetRms, op))
  {
    hide Processed;
    if op.Process? {
      ProcessKeeps(s, op.input, op.now, op.rms, targetRms);
    }
  }

  lemma {:induction false} RunKeeps(targetRms: real, ops: seq<Op>)
    ensures Inv(Run(NEW, targetRms, ops))
  {
    hide Inv, Step;
    if ops == [] {
      NewKeeps();
    } else {
      RunKeeps(targetRms, ops[..|ops| - 1]);
      StepKeeps(Run(NEW, targetRms, ops[..|ops| - 1]), targetRms, ops[|ops| - 1]);
    }
  }

  lemma NewKeeps()
    ensures Inv(NEW)
  {
  }

  /** At any point of any run: both gains in range, every output sample within 0.92 of full scale, and no
      sample clipped unless the ramp is falling. */
  lemma AnyBlock(targetRms: real, ops: seq<Op>, input: Bytes, now: int, rms: real, output: Bytes, k: nat)
    requires k < SampleCount(input)
    requires Processes(Run(NEW, targetRms, ops), input)
    requires IsOutput(Run(NEW, targetRms, ops), input, now, rms, targetRms, output)
    ensures var p := Prepared(Run(NEW, targetRms, ops), input, now, rms, targetRms);
            && GainInRange(p.gain) && GainInRange(p.target)
            && -30146 <= SampleAt(output, k) <= 30146
            && (p.gain <= p.target || p.rampLeft == 0 ==>
                  SampleAt(output, k) == Truncated(Raw(input, p.Ramp(), p.target, k)))
  {
    var s := Run(NEW, targetRms, ops);
    var p := Prepared(s, input, now, rms, targetRms);
    RunKeeps(targetRms, ops);
    ProcessKeeps(s, input, now, rms, targetRms);
    OutputCarries(input, p.Ramp(), p.target, output, k);
    StageFits(Raw(input, p.Ramp(), p.target, k));
    hide Run, Prepared, Raw, Truncated, SampleAt, Peak, Level, IsGained;
    if p.gain <= p.target || p.rampLeft == 0 {
      RisingIsNeverClipped(input, p.Ramp(), p.target, k);
    }
  }

  /** Blocks continue one ramp: with the target unchanged the second block starts where the first one ended. */
  lemma {:induction false} RampSpansBlocks(r: Ramp, target: real, m: nat, n: nat)
    ensures After(After(r, target, m), target, n) == After(r, target, m + n)
  {
    hide Advanced;
    if n > 0 {
      RampSpansBlocks(r, target, m, n - 1);
    }
  }

  /** At any point of any run a block escapes the clipper exactly when each of its samples that still falls into
      the ramp does, by its magnitude and its place on the ramp's line. */
  lemma AnyBlockEscapesExactly(targetRms: real, ops: seq<Op>, input: Bytes, now: int, rms: real)
    ensures var p := Prepared(Run(NEW, targetRms, ops), input, now, rms, targetRms);
            NeverClips(input, p.Ramp(), p.target) <==> EscapesByLine(input, p.Ramp(), p.target)
  {
    RunKeeps(targetRms, ops);
    ProcessKeeps(Run(NEW, targetRms, ops), input, now, rms, targetRms);
    hide Run, Prepared, Level, Peak, NeverClips, EscapesByLine;
    var p := Prepared(Run(NEW, targetRms, ops), input, now, rms, targetRms);
    BlockEscapesExactly(input, p.Ramp(), p.target);
  }

  // A run that ends in a clipped sample, guard or no guard.

  const QUIET: Bytes := [0x01, 0x00]
  const LOUD: Bytes := [0xFF, 0x7F]

  /** Raised to full gain by one quiet sample, then set up for 48 kHz stereo. */
  const RAISING := [
    Configure(1, 1), SetEnabled(true), Process(QUIET, 1, 1.0 / 32768.0), Configure(48000, 2)]

  lemma OneSample(input: Bytes, s: nat)
    requires |input| == 2 && input == Little16(s) && s < 0x8000
    ensures SampleCount(input) == 1 && SampleAt(input, 0) == s && Peak(input, 1) == s
    ensures IsRms(input, s as real / PCM16_FULL_SCALE)
    ensures SumSquares(input, 1) == (s as real / PCM16_FULL_SCALE) * (s as real / PCM16_FULL_SCALE)
  {
    Little16RoundTrip(s);
    assert [input[0], input[1]] == input;
    assert Peak(input, 0) == 0 && SumSquares(input, 0) == 0.0;
  }

  lemma QuietRaises(s: Normalizer, targetRms: real)
    requires s == NEW.(sampleRate := 1, channels := 1, enabled := true) && 0.0001 <= targetRms <= 0.45
    ensures Processed(s, QUIET, 1, 1.0 / 32768.0, targetRms)
         == s.(gain := 1.6, target := 1.6, rampLeft := 0, lastAnalysisMs := 1, highGainWindows := 1)
  {
    OneSample(QUIET, 1);
    hide SampleAt, Peak, SumSquares, IsRms;
    assert TargetGain(QUIET, 1.0 / 32768.0, targetRms) == 1.6;
    assert RampSampleCount(1, 1) == 1;
    var a := Analysed(s, QUIET, 1, 1.0 / 32768.0, targetRms);
    assert a == s.(target := 1.6, rampLeft := 1, lastAnalysisMs := 1, highGainWindows := 1);
    hide TargetGain, RampSampleCount, Analysed;
    assert After(a.Ramp(), 1.6, 0) == a.Ramp();
    assert After(a.Ramp(), 1.6, 1) == Loudness.Ramp(1.6, 0);
  }

  lemma LoudFalls(s: Normalizer, targetRms: real)
    requires s.gain == 1.6 && s.lastAnalysisMs == 1 && s.sampleRate == 48000 && s.channels == 2
    requires 0.0001 <= targetRms <= 0.45
    ensures var p := Prepared(s, LOUD, 501, 32767.0 / 32768.0, targetRms);
            p.gain == 1.6 && p.target == 0.5 && p.rampLeft == 9600
  {
    OneSample(LOUD, 32767);
    hide SampleAt, Peak, IsRms;
    assert SumSquares(LOUD, 1) > 0.0;
    hide SumSquares;
    assert targetRms / (32767.0 / 32768.0) < 0.5;
    assert TargetGain(LOUD, 32767.0 / 32768.0, targetRms) == 0.5;
    assert RampSampleCount(48000, 2) == 9600;
    hide TargetGain, RampSampleCount;
  }

  /** The run is one the square roots allow, and it ends on a ramp that clips a full-scale sample. */
  lemma FallingRampIsReached(targetRms: real)
    requires 0.0001 <= targetRms <= 0.45
    ensures IsRms(QUIET, 1.0 / 32768.0) && IsRms(LOUD, 32767.0 / 32768.0)
    ensures var p := Prepared(Run(NEW, targetRms, RAISING), LOUD, 501, 32767.0 / 32768.0, targetRms);
            && SampleCount(LOUD) == 1
            && p.gain > p.target && Level(p.target, Peak(LOUD, 1)) <= SOFT_CLIP_THRESHOLD
            && Clips(Raw(LOUD, p.Ramp(), p.target, 0))
  {
    OneSample(QUIET, 1);
    OneSample(LOUD, 32767);
    hide IsRms, SampleAt, Peak;
    RaisedRun(targetRms);
    var s := Run(NEW, targetRms, RAISING);
    LoudFalls(s, targetRms);
    var p := Prepared(s, LOUD, 501, 32767.0 / 32768.0, targetRms);
    hide Run, Prepared;
    assert After(p.Ramp(), 0.5, 0) == p.Ramp();
    assert GainAt(p.Ramp(), 0.5, 0) == 1.6 - 1.1 / 9600.0;
  }

  lemma RaisedRun(targetRms: real)
    requires 0.0001 <= targetRms <= 0.45
    ensures Run(NEW, targetRms, RAISING)
         == NEW.(enabled := true, gain := 1.6, target := 1.6, rampLeft := 0, lastAnalysisMs := 1, highGainWindows := 1)
  {
    hide Processed;
    var s := NEW.(sampleRate := 1, channels := 1, enabled := true);
    QuietRaises(s, targetRms);
    assert Run(NEW, targetRms, RAISING[..0]) == NEW;
    assert RAISING[..1][..0] == RAISING[..0] && RAISING[..2][..1] == RAISING[..1] && RAISING[..3][..2] == RAISING[..2];
    assert Run(NEW, targetRms, RAISING[..1]) == NEW.(sampleRate := 1, channels := 1);
    assert Run(NEW, targetRms, RAISING[..2]) == s;
    assert Run(NEW, targetRms, RAISING[..3]) == Processed(s, QUIET, 1, 1.0 / 32768.0, targetRms);
  }
}

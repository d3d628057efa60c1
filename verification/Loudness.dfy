/** Loudness normalisation of 16-bit playback: gain targets, the gain ramp, the peak guard and the soft clipper. */
module Loudness {
  import opened Words
  import opened Reals
  import opened WireFields
  import opened PcmPayloads

  const ANALYSIS_INTERVAL_MS := 500
  const RAMP_MS := 100
  const PCM16_FULL_SCALE := 32768.0
  const MIN_GAIN := 0.5
  const MAX_GAIN := 1.6
  const SOFT_CLIP_THRESHOLD := 28000.0
  const HIGH_GAIN_THRESHOLD := 1.4
  const HIGH_GAIN_CAP := 1.3
  const HIGH_GAIN_HOLD_WINDOWS := 3
  const LIMIT := 30146.56  // 0.92 of full scale

  function Within(v: real, low: real, high: real): real {
    if v < low then low else if v > high then high else v
  }

  // Samples.

  function SampleCount(input: Bytes): nat {
    |input| / 2
  }

  function SampleAt(input: Bytes, k: nat): (s: int)
    requires k < SampleCount(input)
    ensures -0x8000 <= s < 0x8000
  {
    FromLittle16([input[2 * k], input[2 * k + 1]])
  }

  function Abs(n: int): nat {
    if n < 0 then -n else n
  }

  /** The largest magnitude among the first n samples. */
  function Peak(input: Bytes, n: nat): nat
    requires n <= SampleCount(input)
  {
    if n == 0 then 0 else Max(Peak(input, n - 1), Abs(SampleAt(input, n - 1)))
  }

  lemma {:induction false} PeakIsLargest(input: Bytes, n: nat)
    requires n <= SampleCount(input)
    ensures forall k :: 0 <= k < n ==> Abs(SampleAt(input, k)) <= Peak(input, n)
    ensures Peak(input, n) <= 0x8000
    ensures Peak(input, n) == 0 || exists k :: 0 <= k < n && Abs(SampleAt(input, k)) == Peak(input, n)
  {
    hide SampleAt;
    if n > 0 {
      PeakIsLargest(input, n - 1);
    }
  }

  /** Sum of the squares of the first n samples, full scale being one. */
  function SumSquares(input: Bytes, n: nat): (sum: real)
    requires n <= SampleCount(input)
  {
    if n == 0 then 0.0
    else
      var normalized := SampleAt(input, n - 1) as real / PCM16_FULL_SCALE;
      SumSquares(input, n - 1) + normalized * normalized
  }

  /** rms is the exact square root of the mean square. */
  predicate IsRms(input: Bytes, rms: real) {
    var n := SampleCount(input);
    n > 0 ==> rms >= 0.0 && rms * rms * n as real == SumSquares(input, n)
  }

  // The target gain.

  function TargetGain(input: Bytes, rms: real, targetRms: real): real {
    var n := SampleCount(input);
    if n == 0 || SumSquares(input, n) <= 0.0 then 1.0
    else Within(targetRms / if rms < 0.000001 then 0.000001 else rms, MIN_GAIN, MAX_GAIN)
  }

  /** A block whose level is within reach is brought exactly to the target level. */
  lemma TargetGainReaches(input: Bytes, rms: real, targetRms: real)
    requires SampleCount(input) > 0 && SumSquares(input, SampleCount(input)) > 0.0 && rms >= 0.000001
    requires MIN_GAIN * rms <= targetRms <= MAX_GAIN * rms
    ensures TargetGain(input, rms, targetRms) * rms == targetRms
  {
    var g := targetRms / rms;
    assert g * rms == targetRms;
    RatioWithin(g, rms, targetRms);
  }

  lemma RatioWithin(g: real, rms: real, target: real)
    requires rms > 0.0 && g * rms == target && MIN_GAIN * rms <= target <= MAX_GAIN * rms
    ensures MIN_GAIN <= g <= MAX_GAIN
  {
    ProductOrder(g, MIN_GAIN, rms);
    ProductOrder(MAX_GAIN, g, rms);
  }

  lemma ProductOrder(a: real, b: real, m: real)
    requires m > 0.0
    ensures a < b <==> a * m < b * m
  {
    assert (b - a) * m == b * m - a * m;
  }

  // The ramp.

  /** Gain and remaining ramp length; the target stays fixed while a block is processed. */
  datatype Ramp = Ramp(gain: real, left: nat)

  function Advanced(r: Ramp, target: real): Ramp {
    if r.left == 0 then Ramp(target, 0) else Ramp(r.gain + (target - r.gain) / r.left as real, r.left - 1)
  }

  function After(r: Ramp, target: real, n: nat): Ramp {
    if n == 0 then r else Advanced(After(r, target, n - 1), target)
  }

  /** The gain of the k-th sample. */
  function GainAt(r: Ramp, target: real, k: nat): real {
    After(r, target, k + 1).gain
  }

  lemma Interpolates(gap: real, next: real, left: real)
    requires left >= 1.0 && next == gap - gap / left
    ensures next * left == gap * (left - 1.0)
  {
    var q := gap / left;
    assert q * left == gap;
    assert next * left == gap * left - q * left;
  }

  lemma StepShrinks(r: Ramp, target: real)
    requires r.left > 0
    ensures Advanced(r, target).left == r.left - 1
    ensures (target - Advanced(r, target).gain) * r.left as real == (target - r.gain) * (r.left as real - 1.0)
  {
    Interpolates(target - r.gain, target - Advanced(r, target).gain, r.left as real);
  }

  lemma ScaleBack(a: real, b: real, c: real, n: real, m: real)
    requires m > 0.0 && a * n == b * m && c * m == a * (m - 1.0)
    ensures c * n == b * (m - 1.0)
  {
    assert (c * n) * m == (c * m) * n;
    assert (a * n) * (m - 1.0) == (a * (m - 1.0)) * n;
    assert (c * n) * m == (b * (m - 1.0)) * m;
    Cancel(c * n, b * (m - 1.0), m);
  }

  lemma Cancel(x: real, y: real, m: real)
    requires m > 0.0 && x * m == y * m
    ensures x == y
  {
    assert (x - y) * m == 0.0;
  }

  /** The distance left to the target is in proportion to the steps left. */
  predicate OnLine(start: Ramp, target: real, r: Ramp) {
    (target - r.gain) * start.left as real == (target - start.gain) * r.left as real
  }

  lemma LineGoesOn(start: Ramp, target: real, r: Ramp)
    requires OnLine(start, target, r) && r.left > 0
    ensures Advanced(r, target).left == r.left - 1 && OnLine(start, target, Advanced(r, target))
  {
    var next := Advanced(r, target);
    StepShrinks(r, target);
    assert next.left as real == r.left as real - 1.0;
    hide Advanced;
    ScaleBack(target - r.gain, target - start.gain, target - next.gain, start.left as real, r.left as real);
  }

  /** During the ramp the gain runs along the straight line from its start to the target. */
  lemma {:induction false} RampIsLinear(r: Ramp, target: real, n: nat)
    requires n <= r.left
    ensures After(r, target, n).left == r.left - n && OnLine(r, target, After(r, target, n))
  {
    hide OnLine, Advanced;
    if n > 0 {
      RampIsLinear(r, target, n - 1);
      LineGoesOn(r, target, After(r, target, n - 1));
    } else {
      LineStarts(r, target);
    }
  }

  lemma LineStarts(r: Ramp, target: real)
    ensures OnLine(r, target, r)
  {
  }

  lemma {:induction false} RampLands(r: Ramp, target: real, n: nat)
    requires n >= r.left && n > 0
    ensures After(r, target, n) == Ramp(target, 0)
  {
    if n > r.left && n > 1 {
      RampLands(r, target, n - 1);
    } else if r.left > 0 {
      RampIsLinear(r, target, n);
      Cancel(target - After(r, target, n).gain, 0.0, r.left as real);
    }
  }

  lemma Fraction(gap: real, left: real)
    requires left >= 1.0
    ensures gap >= 0.0 ==> 0.0 <= gap / left <= gap
    ensures gap <= 0.0 ==> gap <= gap / left <= 0.0
  {
    var q := gap / left;
    assert q * left == gap;
    assert (left - 1.0) * q == gap - q;
  }

  lemma StepTowards(r: Ramp, target: real)
    ensures r.gain <= target ==> r.gain <= Advanced(r, target).gain <= target
    ensures target <= r.gain ==> target <= Advanced(r, target).gain <= r.gain
  {
    if r.left > 0 {
      Fraction(target - r.gain, r.left as real);
    }
  }

  /** The gain never leaves the stretch between its start and the target. */
  lemma {:induction false} RampStaysBetween(r: Ramp, target: real, n: nat)
    ensures r.gain <= target ==> r.gain <= After(r, target, n).gain <= target
    ensures target <= r.gain ==> target <= After(r, target, n).gain <= r.gain
  {
    hide Advanced;
    if n > 0 {
      RampStaysBetween(r, target, n - 1);
      StepTowards(After(r, target, n - 1), target);
    }
  }

  lemma {:induction false} AfterSplits(r: Ramp, target: real, n: nat)
    requires n > 0
    ensures After(r, target, n) == After(Advanced(r, target), target, n - 1)
  {
    hide Advanced;
    if n > 1 {
      AfterSplits(r, target, n - 1);
    }
  }

  /** On a falling ramp the first sample gets the largest gain. */
  lemma FallingGains(r: Ramp, target: real, k: nat)
    requires target <= r.gain
    ensures GainAt(r, target, k) <= GainAt(r, target, 0)
  {
    hide Advanced;
    AfterSplits(r, target, 1);
    AfterSplits(r, target, k + 1);
    StepTowards(r, target);
    RampStaysBetween(Advanced(r, target), target, k);
  }

  // The output stage.

  function Cubic(n: real): real {
    n * n * n / 4.5
  }

  /** The clipper's curve; above 1 and below -1 it is flat. */
  function Curve(n: real): real {
    if n > 1.0 then 1.0 else if n < -1.0 then -1.0 else n - Cubic(n)
  }

  function Clipped(raw: real): real {
    Curve(Within(raw / LIMIT, -1.5, 1.5)) * LIMIT
  }

  function SoftClip(raw: real): int {
    Clamp(Truncated(Clipped(raw)), -0x8000, 0x7FFF)
  }

  predicate Clips(raw: real) {
    raw > SOFT_CLIP_THRESHOLD || raw < -SOFT_CLIP_THRESHOLD
  }

  function Stage(raw: real): int {
    if Clips(raw) then SoftClip(raw) else Truncated(raw)
  }

  lemma Shrinks(a: real, factor: real)
    requires a >= 0.0 && 0.0 <= factor <= 1.0
    ensures 0.0 <= a * factor <= a
  {
    assert a * (1.0 - factor) == a - a * factor;
  }

  lemma CubicWithin(n: real)
    requires 0.0 <= n <= 1.0
    ensures 0.0 <= Cubic(n) <= n && Cubic(-n) == -Cubic(n)
  {
    Shrinks(n, n);
    Shrinks(n * n, n);
    assert (-n) * (-n) == n * n;
    assert (n * n) * (-n) == -(n * n * n);
  }

  lemma CurveWithin(n: real)
    ensures -1.0 <= Curve(n) <= 1.0
    ensures n >= 0.0 ==> Curve(n) >= 0.0
    ensures n <= 0.0 ==> Curve(n) <= 0.0
  {
    if 0.0 <= n <= 1.0 {
      CubicWithin(n);
    } else if -1.0 <= n < 0.0 {
      CubicWithin(-n);
    }
    hide Cubic;
  }

  lemma ClippedWithin(raw: real)
    ensures -LIMIT <= Clipped(raw) <= LIMIT
  {
    CurveWithin(Within(raw / LIMIT, -1.5, 1.5));
    hide Curve, Within;
  }

  lemma LimitedTruncates(v: real)
    requires -LIMIT <= v <= LIMIT
    ensures -30146 <= Truncated(v) <= 30146
  {
  }

  /** Whatever the gain did, the output is a 16-bit sample, in fact within 0.92 of full scale. */
  lemma StageFits(raw: real)
    ensures -30146 <= Stage(raw) <= 30146
    ensures Clips(raw) ==> Stage(raw) == Truncated(Clipped(raw))
  {
    ClippedWithin(raw);
    LimitedTruncates(Clipped(raw));
    if !Clips(raw) {
      SmallTruncates(raw);
    }
    hide Truncated, Clipped;
  }

  lemma SmallTruncates(raw: real)
    requires -SOFT_CLIP_THRESHOLD <= raw <= SOFT_CLIP_THRESHOLD
    ensures -28000 <= Truncated(raw) <= 28000
  {
  }

  lemma UnitProduct(a: real, b: real)
    requires -1.0 <= a <= 1.0 && -1.0 <= b <= 1.0
    ensures -1.0 <= a * b <= 1.0
  {
    NonNegative(1.0 - a, 1.0 - b);
    NonNegative(1.0 + a, 1.0 + b);
    NonNegative(1.0 - a, 1.0 + b);
    NonNegative(1.0 + a, 1.0 - b);
    assert (1.0 - a) * (1.0 - b) + (1.0 + a) * (1.0 + b) == 2.0 + 2.0 * (a * b);
    assert (1.0 - a) * (1.0 + b) + (1.0 + a) * (1.0 - b) == 2.0 - 2.0 * (a * b);
  }

  lemma CubeDifference(a: real, b: real)
    ensures b * b * b - a * a * a == (b - a) * (a * a + a * b + b * b)
  {
    var aa, ab, bb := a * a, a * b, b * b;
    assert b * aa == a * ab && b * ab == a * bb;
    assert (b - a) * (aa + ab + bb) == (b * aa + b * ab + b * bb) - (a * aa + a * ab + a * bb);
  }

  lemma CubicRises(a: real, b: real)
    requires -1.0 <= a <= b <= 1.0
    ensures Cubic(b) - Cubic(a) <= b - a
  {
    UnitProduct(a, a);
    UnitProduct(a, b);
    UnitProduct(b, b);
    var form, gap := a * a + a * b + b * b, b - a;
    CubeDifference(a, b);
    NonNegative(gap, 3.0 - form);
    assert gap * (3.0 - form) == 3.0 * gap - gap * form;
  }

  lemma CurveRises(a: real, b: real)
    requires a <= b
    ensures Curve(a) <= Curve(b)
  {
    CurveWithin(a);
    CurveWithin(b);
    if -1.0 <= a && b <= 1.0 {
      CubicRises(a, b);
    }
    hide Cubic;
  }

  lemma ClippedRises(a: real, b: real)
    requires a <= b
    ensures Clipped(a) <= Clipped(b)
  {
    CurveRises(Within(a / LIMIT, -1.5, 1.5), Within(b / LIMIT, -1.5, 1.5));
    hide Curve;
  }

  lemma TruncatedRises(a: real, b: real)
    requires a <= b
    ensures Truncated(a) <= Truncated(b)
  {
  }

  /** The stage keeps the order of two samples that are both clipped, or both not. */
  lemma StageRisesOnEachSide(a: real, b: real)
    requires a <= b && Clips(a) == Clips(b)
    ensures Stage(a) <= Stage(b)
  {
    ClippedRises(a, b);
    StageFits(a);
    StageFits(b);
    TruncatedRises(a, b);
    TruncatedRises(Clipped(a), Clipped(b));
    hide Truncated, Clipped;
  }

  lemma CurveBelowOne(n: real)
    requires 0.0 <= n <= 1.0
    ensures Curve(n) <= 0.8
  {
    CurveRises(n, 1.0);
  }

  /** Between the threshold and the limit the clipper turns a louder sample into a quieter one. */
  lemma DipExactly(raw: real)
    requires raw > SOFT_CLIP_THRESHOLD
    ensures Stage(raw) < Stage(SOFT_CLIP_THRESHOLD) <==> raw <= LIMIT
  {
    StageFits(raw);
    assert Stage(SOFT_CLIP_THRESHOLD) == 28000;
    var n := raw / LIMIT;
    if raw <= LIMIT {
      CurveBelowOne(n);
      hide Curve;
      TruncatedRises(Clipped(raw), 0.8 * LIMIT);
      assert Truncated(0.8 * LIMIT) < 28000;
    } else {
      assert Clipped(raw) == LIMIT;
      assert Truncated(LIMIT) == 30146;
    }
  }

  // The peak guard.

  function MaxGain(current: real, target: real): real {
    if current > target then current else target
  }

  function Guarded(current: real, target: real, peak: nat): real {
    if peak == 0 || peak as real * MaxGain(current, target) <= SOFT_CLIP_THRESHOLD then target
    else
      var safe := SOFT_CLIP_THRESHOLD / peak as real;
      if safe < target then (if safe < MIN_GAIN then MIN_GAIN else safe) else target
  }

  predicate GainInRange(gain: real) {
    MIN_GAIN <= gain <= MAX_GAIN
  }

  lemma SafeGain(peak: nat)
    requires 0 < peak <= 0x8000
    ensures var safe := SOFT_CLIP_THRESHOLD / peak as real;
            safe * peak as real == SOFT_CLIP_THRESHOLD && safe > MIN_GAIN
  {
    var safe := SOFT_CLIP_THRESHOLD / peak as real;
    ProductOrder(MIN_GAIN, safe, peak as real);
  }

  /** After the guard the target cannot push the block's peak over the threshold, and it was not lowered more
      than that takes. */
  lemma GuardHolds(current: real, target: real, peak: nat)
    requires GainInRange(current) && GainInRange(target) && peak <= 0x8000
    ensures var g := Guarded(current, target, peak);
            && GainInRange(g) && g <= target
            && Level(g, peak) <= SOFT_CLIP_THRESHOLD
            && (g < target ==> Level(g, peak) == SOFT_CLIP_THRESHOLD)
  {
    var p, most := peak as real, MaxGain(current, target);
    if peak == 0 {
      assert Level(target, 0) == 0.0;
    } else if p * most <= SOFT_CLIP_THRESHOLD {
      assert most * p == p * most;
      SmallerGain(target, most, peak, SOFT_CLIP_THRESHOLD);
    } else {
      SafeGain(peak);
      var safe := SOFT_CLIP_THRESHOLD / p;
      if safe >= target {
        SmallerGain(target, safe, peak, SOFT_CLIP_THRESHOLD);
      }
    }
  }

  // One block.

  function Gained(s: int, gain: real): real {
    s as real * gain
  }

  function Level(gain: real, peak: nat): real {
    gain * peak as real
  }

  /** The gained sample before the output stage. */
  function Raw(input: Bytes, r: Ramp, target: real, k: nat): real
    requires k < SampleCount(input)
  {
    Gained(SampleAt(input, k), GainAt(r, target, k))
  }

  lemma MagnitudeWithin(s: int, gain: real, peak: nat, bound: real)
    requires Abs(s) <= peak && 0.0 <= gain && gain * peak as real <= bound
    ensures -bound <= s as real * gain <= bound
  {
    var a, p := s as real, peak as real;
    NonNegative(p - a, gain);
    NonNegative(p + a, gain);
    assert (p - a) * gain == gain * p - a * gain;
    assert (p + a) * gain == gain * p + a * gain;
  }

  lemma SmallerGain(gain: real, larger: real, peak: nat, bound: real)
    requires 0.0 <= gain <= larger && larger * peak as real <= bound
    ensures gain * peak as real <= bound
  {
    NonNegative(larger - gain, peak as real);
    assert (larger - gain) * peak as real == larger * peak as real - gain * peak as real;
  }

  lemma QuietSample(s: int, gain: real, larger: real, peak: nat)
    requires Abs(s) <= peak && 0.0 <= gain <= larger && Level(larger, peak) <= SOFT_CLIP_THRESHOLD
    ensures !Clips(Gained(s, gain))
  {
    SmallerGain(gain, larger, peak, SOFT_CLIP_THRESHOLD);
    MagnitudeWithin(s, gain, peak, SOFT_CLIP_THRESHOLD);
  }

  /** With the guarded target a rising or finished ramp never reaches the clipper. */
  lemma RisingIsNeverClipped(input: Bytes, r: Ramp, target: real, k: nat)
    requires k < SampleCount(input) && GainInRange(r.gain) && GainInRange(target)
    requires r.gain <= target || r.left == 0
    requires Level(target, Peak(input, SampleCount(input))) <= SOFT_CLIP_THRESHOLD
    ensures !Clips(Raw(input, r, target, k))
  {
    hide Gained, Level, Clips, After, SampleAt, Peak, Abs;
    var n := SampleCount(input);
    PeakIsLargest(input, n);
    if r.left == 0 {
      RampLands(r, target, k + 1);
    } else {
      RampStaysBetween(r, target, k + 1);
    }
    QuietSample(SampleAt(input, k), GainAt(r, target, k), target, Peak(input, n));
  }

  /** On a falling ramp no sample is clipped when the ramp's first gain keeps the block's peak quiet. */
  lemma FallingIsQuiet(input: Bytes, r: Ramp, target: real, k: nat)
    requires k < SampleCount(input) && GainInRange(r.gain) && GainInRange(target) && target <= r.gain
    requires Level(GainAt(r, target, 0), Peak(input, SampleCount(input))) <= SOFT_CLIP_THRESHOLD
    ensures !Clips(Raw(input, r, target, k))
  {
    hide Gained, Level, Clips, After, SampleAt, Peak, Abs;
    PeakIsLargest(input, SampleCount(input));
    FallingGains(r, target, k);
    RampStaysBetween(r, target, k + 1);
    QuietSample(SampleAt(input, k), GainAt(r, target, k), GainAt(r, target, 0), Peak(input, SampleCount(input)));
  }

  lemma ClipsByLevel(s: int, gain: real)
    requires gain >= 0.0
    ensures Clips(Gained(s, gain)) <==> Level(gain, Abs(s)) > SOFT_CLIP_THRESHOLD
  {
    assert s < 0 ==> s as real * gain == -(gain * Abs(s) as real);
    NonNegative(gain, Abs(s) as real);
  }

  /** The gain of the k-th sample times the length of the ramp: a straight line in k, no division. */
  function LineAt(r: Ramp, target: real, k: nat): real {
    r.gain * r.left as real + (target - r.gain) * (k + 1) as real
  }

  lemma GainOnLine(r: Ramp, target: real, k: nat)
    requires k < r.left
    ensures GainAt(r, target, k) * r.left as real == LineAt(r, target, k)
  {
    RampIsLinear(r, target, k + 1);
    var g, n, m := GainAt(r, target, k), r.left as real, (k + 1) as real;
    hide After;
    assert (r.left - (k + 1)) as real == n - m;
    LineSolved(target, g, r.gain, n, m);
  }

  lemma LineSolved(target: real, g: real, start: real, n: real, m: real)
    requires (target - g) * n == (target - start) * (n - m)
    ensures g * n == start * n + (target - start) * m
  {
    assert (target - g) * n == target * n - g * n;
    assert (target - start) * (n - m) == target * n - start * n - (target - start) * m;
  }

  lemma LevelOnLine(gain: real, line: real, left: real, magnitude: real)
    requires left > 0.0 && gain * left == line
    ensures gain * magnitude > SOFT_CLIP_THRESHOLD <==> line * magnitude > SOFT_CLIP_THRESHOLD * left
  {
    ProductOrder(SOFT_CLIP_THRESHOLD, gain * magnitude, left);
    assert (gain * magnitude) * left == (gain * left) * magnitude;
  }

  /** Which samples of a block are clipped during the ramp, from the ramp's start, its target and its length. */
  lemma ClippedOnRampExactly(input: Bytes, r: Ramp, target: real, k: nat)
    requires k < SampleCount(input) && k < r.left && GainInRange(r.gain) && GainInRange(target)
    ensures Clips(Raw(input, r, target, k)) <==>
              LineAt(r, target, k) * Abs(SampleAt(input, k)) as real > SOFT_CLIP_THRESHOLD * r.left as real
  {
    hide Clips, After, SampleAt, Abs, LineAt, Gained;
    GainOnLine(r, target, k);
    RampStaysBetween(r, target, k + 1);
    ClipsByLevel(SampleAt(input, k), GainAt(r, target, k));
    LevelOnLine(GainAt(r, target, k), LineAt(r, target, k), r.left as real, Abs(SampleAt(input, k)) as real);
  }

  predicate NeverClips(input: Bytes, r: Ramp, target: real) {
    forall k :: 0 <= k < SampleCount(input) ==> !Clips(Raw(input, r, target, k))
  }

  /** Each sample within the ramp stays quiet, by its magnitude and its place on the line. */
  predicate EscapesByLine(input: Bytes, r: Ramp, target: real) {
    forall k :: 0 <= k < SampleCount(input) && k < r.left ==>
      LineAt(r, target, k) * Abs(SampleAt(input, k)) as real <= SOFT_CLIP_THRESHOLD * r.left as real
  }

  /**
   * Whatever the ramp does, a block with a guarded target escapes the clipper exactly when each of its samples
   * within the ramp does.
   */
  lemma BlockEscapesExactly(input: Bytes, r: Ramp, target: real)
    requires GainInRange(r.gain) && GainInRange(target)
    requires Level(target, Peak(input, SampleCount(input))) <= SOFT_CLIP_THRESHOLD
    ensures NeverClips(input, r, target) <==> EscapesByLine(input, r, target)
  {
    hide Clips, SampleAt, Abs, LineAt, Peak, Level, Raw, GainAt;
    forall k | 0 <= k < SampleCount(input)
      ensures k < r.left ==>
                (Clips(Raw(input, r, target, k)) <==>
                   LineAt(r, target, k) * Abs(SampleAt(input, k)) as real > SOFT_CLIP_THRESHOLD * r.left as real)
      ensures k >= r.left ==> !Clips(Raw(input, r, target, k))
    {
      if k < r.left {
        ClippedOnRampExactly(input, r, target, k);
      } else {
        FinishedIsQuiet(input, r, target, k);
      }
    }
  }

  lemma FinishedIsQuiet(input: Bytes, r: Ramp, target: real, k: nat)
    requires r.left <= k < SampleCount(input) && GainInRange(target)
    requires Level(target, Peak(input, SampleCount(input))) <= SOFT_CLIP_THRESHOLD
    ensures !Clips(Raw(input, r, target, k))
  {
    hide Gained, Level, Clips, After, SampleAt, Peak, Abs;
    PeakIsLargest(input, SampleCount(input));
    RampLands(r, target, k + 1);
    QuietSample(SampleAt(input, k), target, target, Peak(input, SampleCount(input)));
  }

  /** A block that opens with its peak escapes the clipper on a falling ramp exactly when the ramp's first gain
      keeps that peak below the threshold. */
  lemma OpeningPeakClipsExactly(input: Bytes, r: Ramp, target: real)
    requires SampleCount(input) > 0 && GainInRange(r.gain) && GainInRange(target) && target <= r.gain
    requires Abs(SampleAt(input, 0)) == Peak(input, SampleCount(input))
    ensures NeverClips(input, r, target) <==>
              Level(GainAt(r, target, 0), Peak(input, SampleCount(input))) <= SOFT_CLIP_THRESHOLD
  {
    hide Gained, Level, Clips, After, SampleAt, Peak, Abs;
    RampStaysBetween(r, target, 1);
    ClipsByLevel(SampleAt(input, 0), GainAt(r, target, 0));
    if Level(GainAt(r, target, 0), Peak(input, SampleCount(input))) <= SOFT_CLIP_THRESHOLD {
      forall k | 0 <= k < SampleCount(input) ensures !Clips(Raw(input, r, target, k)) {
        FallingIsQuiet(input, r, target, k);
      }
    } else {
      assert Clips(Raw(input, r, target, 0));
    }
  }

  // Where the output stage is not monotone.

  lemma TruncatedIsOdd(v: real)
    ensures Truncated(-v) == -Truncated(v)
  {
  }

  lemma CubicIsOdd(n: real)
    ensures Cubic(-n) == -Cubic(n)
  {
    assert (-n) * (-n) == n * n;
    assert (n * n) * (-n) == -(n * n * n);
  }

  lemma ClippedIsOdd(raw: real)
    ensures Clipped(-raw) == -Clipped(raw)
  {
    var n := Within(raw / LIMIT, -1.5, 1.5);
    assert Within((-raw) / LIMIT, -1.5, 1.5) == -n;
    CubicIsOdd(n);
    hide Cubic, Within;
    assert Curve(-n) == -Curve(n);
    hide Curve;
  }

  /** The output stage treats both signs alike. */
  lemma StageIsOdd(raw: real)
    ensures Stage(-raw) == -Stage(raw)
  {
    StageFits(raw);
    StageFits(-raw);
    ClippedIsOdd(raw);
    TruncatedIsOdd(raw);
    TruncatedIsOdd(Clipped(raw));
    hide Truncated, Clipped, SoftClip;
  }

  /** Some quieter sample comes out louder, exactly for samples between the threshold and the limit. */
  lemma NotMonotoneExactly(b: real)
    requires b >= 0.0
    ensures (exists a :: 0.0 <= a <= b && Stage(a) > Stage(b)) <==> SOFT_CLIP_THRESHOLD < b <= LIMIT
  {
    hide Stage;
    if SOFT_CLIP_THRESHOLD < b {
      DipExactly(b);
    }
    forall a | 0.0 <= a <= b && !(SOFT_CLIP_THRESHOLD < b <= LIMIT) ensures Stage(a) <= Stage(b) {
      OutsideTheDip(a, b);
    }
  }

  lemma OutsideTheDip(a: real, b: real)
    requires 0.0 <= a <= b && !(SOFT_CLIP_THRESHOLD < b <= LIMIT)
    ensures Stage(a) <= Stage(b)
  {
    hide Stage;
    if Clips(a) == Clips(b) {
      StageRisesOnEachSide(a, b);
    } else {
      StageRisesOnEachSide(a, SOFT_CLIP_THRESHOLD);
      DipExactly(b);
    }
  }

  lemma NotMonotoneExactlyBelow(b: real)
    requires b <= 0.0
    ensures (exists a :: b <= a <= 0.0 && Stage(a) < Stage(b)) <==> -LIMIT <= b < -SOFT_CLIP_THRESHOLD
  {
    hide Stage;
    NotMonotoneExactly(-b);
    StageIsOdd(b);
    if a :| 0.0 <= a <= -b && Stage(a) > Stage(-b) {
      StageIsOdd(a);
      assert b <= -a <= 0.0 && Stage(-a) < Stage(b);
    }
    if a :| b <= a <= 0.0 && Stage(a) < Stage(b) {
      StageIsOdd(a);
      assert 0.0 <= -a <= -b && Stage(-a) > Stage(-b);
    }
  }
}

/** Target gains, due analyses and idle normalisers, said on samples, thresholds and fields. */
module LoudnessLaws {
  import opened Words
  import opened WireFields
  import opened PcmPayloads
  import opened Loudness
  import opened LoudnessRuns

  // The target of one block.

  predicate AllZero(input: Bytes, n: nat)
    requires n <= SampleCount(input)
  {
    forall k :: 0 <= k < n ==> SampleAt(input, k) == 0
  }

  lemma {:induction false} SilentExactly(input: Bytes, n: nat)
    requires n <= SampleCount(input)
    ensures SumSquares(input, n) >= 0.0
    ensures SumSquares(input, n) == 0.0 <==> AllZero(input, n)
  {
    hide SampleAt;
    if n > 0 {
      SilentExactly(input, n - 1);
      SquareIsPositive(SampleAt(input, n - 1) as real / PCM16_FULL_SCALE);
      assert AllZero(input, n) <==> AllZero(input, n - 1) && SampleAt(input, n - 1) == 0;
    }
  }

  lemma SquareIsPositive(x: real)
    ensures x * x >= 0.0 && (x * x == 0.0 <==> x == 0.0)
  {
    if x > 0.0 {
      PositiveProduct(x, x, x * x);
    } else if x < 0.0 {
      PositiveProduct(-x, -x, x * x);
    }
  }

  lemma PositiveProduct(x: real, y: real, product: real)
    requires x > 0.0 && y > 0.0 && product == x * y
    ensures product > 0.0
  {
  }

  /** The sum of the squares of the first n samples. */
  function Energy(input: Bytes, n: nat): int
    requires n <= SampleCount(input)
  {
    if n == 0 then 0 else Energy(input, n - 1) + SampleAt(input, n - 1) * SampleAt(input, n - 1)
  }

  /** Full scale counts as one. */
  lemma {:induction false} FullScaleIsOne(input: Bytes, n: nat)
    requires n <= SampleCount(input)
    ensures SumSquares(input, n) * 1_073_741_824.0 == Energy(input, n) as real
  {
    hide SampleAt;
    if n > 0 {
      FullScaleIsOne(input, n - 1);
      ScaledSquare(SampleAt(input, n - 1));
    }
  }

  lemma ScaledSquare(s: int)
    ensures (s as real / PCM16_FULL_SCALE) * (s as real / PCM16_FULL_SCALE) * 1_073_741_824.0 == (s * s) as real
  {
    var x := s as real / PCM16_FULL_SCALE;
    assert x * 32768.0 == s as real;
    assert (x * 32768.0) * (x * 32768.0) == (s * s) as real;
  }

  /**
   * The target gain in every case: 1 for silence; otherwise the gain that brings the level to the target level,
   * or 0.5 or 1.6 where that gain lies below or above.
   */
  lemma TargetExactly(input: Bytes, rms: real, targetRms: real, level: real)
    requires level == if rms < 0.000001 then 0.000001 else rms
    ensures var g := TargetGain(input, rms, targetRms);
            if AllZero(input, SampleCount(input)) then g == 1.0
            else if targetRms < 0.5 * level then g == 0.5
            else if targetRms > 1.6 * level then g == 1.6
            else g * level == targetRms
  {
    hide SampleAt, SumSquares, AllZero;
    SilentExactly(input, SampleCount(input));
    if SampleCount(input) == 0 {
      assert AllZero(input, 0) by { EmptyIsZero(input); }
    }
    QuotientWithin(targetRms, level, targetRms / level);
  }

  lemma EmptyIsZero(input: Bytes)
    ensures AllZero(input, 0)
  {
  }

  lemma QuotientWithin(a: real, b: real, q: real)
    requires b > 0.0 && q * b == a
    ensures q < 0.5 <==> a < 0.5 * b
    ensures q > 1.6 <==> a > 1.6 * b
  {
    ProductOrder(q, 0.5, b);
    ProductOrder(1.6, q, b);
  }

  // An analysis.

  /** At the first block, and then every 500 ms of the 64-bit clock. */
  predicate Waited(lastMs: int, now: int) {
    lastMs == 0 || ToInt64(now - lastMs) >= 500
  }

  /**
   * A block is analysed exactly when the first or 500 ms have passed. The analysis restarts the ramp and counts how
   * often in a row the gain asked for was at least 1.4; from the third time on it is cut to 1.3.
   */
  lemma AnalysisExactly(s: Normalizer, input: Bytes, now: int, rms: real, targetRms: real, asked: real, windows: nat)
    requires asked == TargetGain(input, rms, targetRms)
    requires windows == if asked >= 1.4 then s.highGainWindows + 1 else 0
    ensures Analysed(s, input, now, rms, targetRms) ==
              if !Waited(s.lastAnalysisMs, now) then s
              else s.(target := if windows >= 3 && asked > 1.3 then 1.3 else asked, highGainWindows := windows,
                      rampLeft := RampSampleCount(s.sampleRate, s.channels), lastAnalysisMs := now)
  {
    hide TargetGain, RampSampleCount;
  }

  // Idle.

  /** Switched off or in low latency mode it hands blocks through and changes nothing. */
  lemma IdlePassesThrough(s: Normalizer, input: Bytes, now: int, rms: real, targetRms: real, output: Bytes)
    requires !s.enabled || s.mode == "low_latency" || |input| < 2
    requires IsOutput(s, input, now, rms, targetRms, output)
    ensures output == input && Processed(s, input, now, rms, targetRms) == s
  {
  }

  /** Unit gain, no ramp, no memory; what it is set up for stays. */
  predicate IsIdle(s: Normalizer) {
    s.gain == 1.0 && s.target == 1.0 && s.rampLeft == 0 && s.lastAnalysisMs == 0 && s.highGainWindows == 0
  }

  /** Switching changes the switch; and where that leaves it off or in low latency mode, the gain is reset. */
  lemma SwitchingExactly(s: Normalizer, targetRms: real, op: Op)
    requires op.SetEnabled? || op.SetMode?
    ensures var n, enabled, mode := Step(s, targetRms, op), if op.SetEnabled? then op.enabled else s.enabled,
                                    if op.SetMode? then op.mode else s.mode;
            && n.enabled == enabled && n.mode == mode && n.sampleRate == s.sampleRate && n.channels == s.channels
            && (!enabled || mode == "low_latency" ==> IsIdle(n))
            && (enabled && mode != "low_latency" ==> n == s.(enabled := enabled, mode := mode))
  {
  }

  predicate IsOff(targetRms: real, ops: seq<Op>) {
    !Run(NEW, targetRms, ops).enabled || Run(NEW, targetRms, ops).mode == "low_latency"
  }

  lemma IdleStep(s: Normalizer, targetRms: real, op: Op)
    requires !s.enabled || s.mode == "low_latency" ==> IsIdle(s)
    ensures var n := Step(s, targetRms, op); !n.enabled || n.mode == "low_latency" ==> IsIdle(n)
  {
    hide Processed;
    if op.Process? {
      BlocksDoNotSwitch(s, op.input, op.now, op.rms, targetRms);
    }
  }

  lemma BlocksDoNotSwitch(s: Normalizer, input: Bytes, now: int, rms: real, targetRms: real)
    ensures var n := Processed(s, input, now, rms, targetRms);
            && n.enabled == s.enabled && n.mode == s.mode && n.sampleRate == s.sampleRate && n.channels == s.channels
            && (!Processes(s, input) ==> n == s)
  {
    hide TargetGain, Peak, Guarded, RampSampleCount, Loudness.After;
  }

  /** Over any run: whenever it is switched off or in low latency mode, its gain is one. */
  lemma {:induction false} IdleIsUnity(targetRms: real, ops: seq<Op>)
    ensures IsOff(targetRms, ops) ==> IsIdle(Run(NEW, targetRms, ops))
  {
    hide IsIdle, Step;
    if ops == [] {
      NewIsIdle();
    } else {
      IdleIsUnity(targetRms, ops[..|ops| - 1]);
      IdleStep(Run(NEW, targetRms, ops[..|ops| - 1]), targetRms, ops[|ops| - 1]);
    }
  }

  lemma NewIsIdle()
    ensures IsIdle(NEW) && !NEW.enabled && NEW.sampleRate == 48000 && NEW.channels == 2
  {
  }

  // The clipper's curve.

  /** Only beyond 28000 is a sample clipped, on either side; up to there its fraction is dropped. */
  lemma StageExactly(raw: real)
    ensures -28000.0 <= raw <= 28000.0 ==> Stage(raw) == Truncated(raw)
    ensures raw < -28000.0 || raw > 28000.0 ==> Stage(raw) == Truncated(Clipped(raw))
  {
    StageFits(raw);
    hide Truncated, Clipped;
  }

  /** Up to 0.92 of full scale the clipper takes off the cube, divided by 4.5 when the limit counts as one; beyond, it
      gives the limit. */
  lemma ClipperExactly(raw: real, limit: real)
    requires limit == 30146.56
    ensures -limit <= raw <= limit ==> 4.5 * (limit * limit) * (raw - Clipped(raw)) == raw * raw * raw
    ensures raw > limit ==> Clipped(raw) == limit
    ensures raw < -limit ==> Clipped(raw) == -limit
  {
    var n := raw / limit;
    assert n * limit == raw;
    if -limit <= raw <= limit {
      UnitWithin(raw, limit, n);
      assert Clipped(raw) == (n - Cubic(n)) * limit by { hide Cubic; }
      CubeLaw(raw, limit, n, Cubic(n));
    } else {
      BeyondUnit(raw, limit, n);
      hide Cubic;
    }
  }

  lemma UnitWithin(raw: real, limit: real, n: real)
    requires limit > 0.0 && n * limit == raw && -limit <= raw <= limit
    ensures -1.0 <= n <= 1.0
  {
    ProductOrder(1.0, n, limit);
    ProductOrder(n, -1.0, limit);
  }

  lemma BeyondUnit(raw: real, limit: real, n: real)
    requires limit > 0.0 && n * limit == raw
    ensures raw > limit ==> n > 1.0
    ensures raw < -limit ==> n < -1.0
  {
    ProductOrder(1.0, n, limit);
    ProductOrder(n, -1.0, limit);
  }

  lemma CubeLaw(raw: real, limit: real, n: real, cube: real)
    requires n * limit == raw && cube == n * n * n / 4.5
    ensures 4.5 * (limit * limit) * (raw - (n - cube) * limit) == raw * raw * raw
  {
    assert raw - (n - cube) * limit == cube * limit;
    assert raw * raw * raw == (n * n * n) * (limit * limit * limit);
    assert 4.5 * cube == n * n * n;
  }
}

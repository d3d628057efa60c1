/** The controller and the engine, said as a textbook says them. */
module ControlLaw {
  import opened Words
  import opened Reals
  import opened KalmanTheory
  import opened SyncEngine

  /** The error lies between the dead zone and the bang-bang threshold. */
  predicate InLinearBand(error: real) {
    5.0 <= error <= 30.0 || -30.0 <= error <= -5.0
  }

  /** y is u, cut to the band from -bound to bound. */
  predicate IsCut(y: real, u: real, bound: real) {
    && -bound <= y <= bound
    && (-bound <= u <= bound ==> y == u) && (u > bound ==> y == bound) && (u < -bound ==> y == -bound)
  }

  /** The proportional, the integral and the derivative part. */
  function ThreeParts(kp: real, error: real, ki: real, integral: real, kd: real, slope: real): real {
    kp * error + ki * integral + kd * slope
  }

  function Grown(integral: real, error: real, dt: real): real {
    integral + error * dt
  }

  lemma CutRises(y: real, u: real, z: real, v: real, bound: real)
    requires IsCut(y, u, bound) && IsCut(z, v, bound) && u <= v
    ensures y <= z
  {
  }

  lemma IntegratedIsCut(integral: real, error: real, dt: real)
    ensures IsCut(Integrated(integral, error, dt), Grown(integral, error, dt), 50.0)
  {
  }

  lemma OutputIsCut(kp: real, ki: real, kd: real, error: real, integral: real, filtered: real)
    ensures var sum := ThreeParts(kp, error, ki, integral, kd, filtered);
            IsCut(Output(kp, ki, kd, error, integral, filtered), sum, 20.0)
  {
  }

  /**
   * In the linear band the offset is the proportional, the integral and the filtered derivative part, cut at 20 mHz.
   * The integral grows by error times time and is cut at 50, or stays when frozen.
   */
  lemma LinearLaw(c: Pid, predicted: real, dt: real, error: real)
    requires error == c.target - predicted && InLinearBand(error)
    ensures var (n, offset) := PidStep(c, predicted, dt);
            && IsCut(offset, ThreeParts(c.kp, error, c.ki, n.integral, c.kd, n.lastDFiltered), 20.0)
            && (if c.frozen then n.integral == c.integral else IsCut(n.integral, Grown(c.integral, error, dt), 50.0))
            && n.lastError == Some(error)
            && n == c.(integral := n.integral, lastError := n.lastError, lastDFiltered := n.lastDFiltered)
  {
    hide Slope, Smoothed, Output, Integrated, IsCut, ThreeParts, Grown;
    IntegratedIsCut(c.integral, error, dt);
    var n := PidStep(c, predicted, dt).0;
    OutputIsCut(c.kp, c.ki, c.kd, error, n.integral, n.lastDFiltered);
  }

  /** The filtered derivative: the new slope counts with the filter's share, the old one with the rest. */
  lemma DerivativeLaw(c: Pid, predicted: real, dt: real, error: real)
    requires error == c.target - predicted && InLinearBand(error) && dt >= 0.000001
    ensures var n, rest := PidStep(c, predicted, dt).0, 1.0 - c.dFilterAlpha;
            (n.lastDFiltered - rest * c.lastDFiltered) * dt
              == (if c.lastError.Some? then c.dFilterAlpha * (error - c.lastError.value) else 0.0)
  {
    var slope := Slope(c.lastError, error, dt);
    var filtered := PidStep(c, predicted, dt).0.lastDFiltered;
    assert filtered == Smoothed(c.dFilterAlpha, slope, c.lastDFiltered) by {
      hide Slope, Smoothed, Integrated, Output;
    }
    SmoothedOverTime(c.dFilterAlpha, slope, c.lastDFiltered, dt);
    if c.lastError.Some? {
      SlopeOverTime(c.lastError.value, error, dt);
    } else {
      assert slope * dt == 0.0;
    }
    hide Slope, Smoothed, PidStep;
  }

  lemma SlopeOverTime(last: real, error: real, dt: real)
    requires dt >= 0.000001
    ensures Slope(Some(last), error, dt) * dt == error - last
  {
  }

  lemma SmoothedOverTime(alpha: real, slope: real, last: real, dt: real)
    ensures (Smoothed(alpha, slope, last) - (1.0 - alpha) * last) * dt == alpha * (slope * dt)
  {
    assert Smoothed(alpha, slope, last) - (1.0 - alpha) * last == alpha * slope;
  }

  /** In the dead zone nothing is asked for, and the derivative memory fades by the filter's share. */
  lemma DeadZoneFades(c: Pid, predicted: real, dt: real)
    requires -5.0 < c.target - predicted < 5.0
    ensures var (n, offset) := PidStep(c, predicted, dt);
            && offset == 0.0
            && n == c.(lastError := Some(c.target - predicted), lastDFiltered := n.lastDFiltered)
            && n.lastDFiltered + c.dFilterAlpha * c.lastDFiltered == c.lastDFiltered
  {
  }

  /** Far from the target the offset is full, towards the target, and only the error is remembered. */
  lemma BangBangLaw(c: Pid, predicted: real, dt: real)
    requires !(-30.0 <= c.target - predicted <= 30.0)
    ensures var (n, offset) := PidStep(c, predicted, dt);
            && offset == (if predicted < c.target then 20.0 else -20.0)
            && n == c.(lastError := Some(c.target - predicted))
  {
  }

  /** Both begin with no memory: the controller with its gains, the filter at the level it is given. */
  lemma StartsAt(target: real, initial: real)
    ensures var c := NewPid(target);
            && c.target == target && c.integral == 0.0 && c.lastError == None && c.lastDFiltered == 0.0 && !c.frozen
            && c.kp == 0.30 && c.ki == 0.02 && c.kd == 0.10 && c.dFilterAlpha == 0.6
    ensures var f := NewFilter(initial);
            && f.level == initial && f.drift == 0.0 && f.cov.p00 == 100.0 && f.cov.p01 == 0.0 && f.cov.p11 == 1.0
            && f.bufferNoise == 0.5 && f.driftNoise == 0.01 && f.measurementNoise == 4.0
  {
  }

  /** Without memory the first offset is (kp + ki dt) times the error while nothing is cut. */
  lemma FirstOffset(c: Pid, predicted: real, dt: real, error: real)
    requires error == c.target - predicted && InLinearBand(error)
    requires !c.frozen && c.integral == 0.0 && c.lastError == None && c.lastDFiltered == 0.0
    requires -50.0 <= error * dt <= 50.0 && -20.0 <= (c.kp + c.ki * dt) * error <= 20.0
    ensures PidStep(c, predicted, dt).1 == (c.kp + c.ki * dt) * error
  {
    LinearLaw(c, predicted, dt, error);
    var (n, offset) := PidStep(c, predicted, dt);
    assert n.integral == error * dt;
    assert n.lastDFiltered == 0.0 by {
      hide Integrated, Output;
    }
    hide PidStep;
    FirstSum(c.kp, c.ki, c.kd, error, dt);
  }

  lemma FirstSum(kp: real, ki: real, kd: real, error: real, dt: real)
    ensures kp * error + ki * (error * dt) + kd * 0.0 == (kp + ki * dt) * error
  {
  }

  predicate Tunable(c: Pid) {
    c.kp >= 0.0 && c.ki >= 0.0 && c.kd >= 0.0 && 0.0 <= c.dFilterAlpha <= 1.0
  }

  /** In the linear band the offset never falls as the error, the integral or the remembered slope rises. */
  lemma OffsetRises(c: Pid, d: Pid, predicted: real, lower: real, dt: real, error: real, more: real)
    requires Tunable(c) && dt >= 0.000001 && lower <= predicted
    requires d == c.(integral := d.integral, lastDFiltered := d.lastDFiltered)
    requires d.integral >= c.integral && d.lastDFiltered >= c.lastDFiltered
    requires error == c.target - predicted && InLinearBand(error) && more == c.target - lower && InLinearBand(more)
    ensures PidStep(d, lower, dt).1 >= PidStep(c, predicted, dt).1
  {
    hide PidStep, IsCut, InLinearBand, ThreeParts, Grown;
    LinearLaw(c, predicted, dt, error);
    LinearLaw(d, lower, dt, more);
    DerivativeLaw(c, predicted, dt, error);
    DerivativeLaw(d, lower, dt, more);
    var (m, low) := PidStep(c, predicted, dt);
    var (n, high) := PidStep(d, lower, dt);
    if !c.frozen {
      GrownRises(c.integral, error, d.integral, more, dt);
      CutRises(m.integral, Grown(c.integral, error, dt), n.integral, Grown(d.integral, more, dt), 50.0);
    }
    FilteredRises(c, d, error, more, dt, m.lastDFiltered, n.lastDFiltered);
    SumRises(c.kp, error, more, c.ki, m.integral, n.integral, c.kd, m.lastDFiltered, n.lastDFiltered);
    CutRises(low, ThreeParts(c.kp, error, c.ki, m.integral, c.kd, m.lastDFiltered),
             high, ThreeParts(c.kp, more, c.ki, n.integral, c.kd, n.lastDFiltered), 20.0);
  }

  lemma SumRises(kp: real, p: real, q: real, ki: real, i: real, j: real, kd: real, d: real, e: real)
    requires kp >= 0.0 && ki >= 0.0 && kd >= 0.0 && p <= q && i <= j && d <= e
    ensures ThreeParts(kp, p, ki, i, kd, d) <= ThreeParts(kp, q, ki, j, kd, e)
  {
    PartRises(kp, p, q);
    PartRises(ki, i, j);
    PartRises(kd, d, e);
  }

  lemma GrownRises(i: real, error: real, j: real, more: real, dt: real)
    requires i <= j && error <= more && dt >= 0.0
    ensures Grown(i, error, dt) <= Grown(j, more, dt)
  {
    PartRises(dt, error, more);
  }

  lemma PartRises(k: real, x: real, y: real)
    requires k >= 0.0 && x <= y
    ensures k * x <= k * y
  {
    NonNegative(k, y - x);
    assert k * y - k * x == k * (y - x);
  }

  lemma FilteredRises(c: Pid, d: Pid, error: real, more: real, dt: real, m: real, n: real)
    requires Tunable(c) && dt >= 0.000001 && more >= error
    requires d == c.(integral := d.integral, lastDFiltered := d.lastDFiltered) && d.lastDFiltered >= c.lastDFiltered
    requires (m - (1.0 - c.dFilterAlpha) * c.lastDFiltered) * dt
          == (if c.lastError.Some? then c.dFilterAlpha * (error - c.lastError.value) else 0.0)
    requires (n - (1.0 - c.dFilterAlpha) * d.lastDFiltered) * dt
          == (if c.lastError.Some? then c.dFilterAlpha * (more - c.lastError.value) else 0.0)
    ensures n >= m
  {
    var rest := 1.0 - c.dFilterAlpha;
    if c.lastError.Some? {
      PartRises(c.dFilterAlpha, error - c.lastError.value, more - c.lastError.value);
    }
    KeptRises(rest, c.lastDFiltered, d.lastDFiltered, m, n, m - rest * c.lastDFiltered, n - rest * d.lastDFiltered, dt);
  }

  lemma KeptRises(rest: real, i: real, j: real, m: real, n: real, a: real, b: real, dt: real)
    requires rest >= 0.0 && i <= j && a == m - rest * i && b == n - rest * j
    requires dt > 0.0 && a * dt <= b * dt
    ensures m <= n
  {
    PartRises(rest, i, j);
    Cancels(a, b, dt);
  }

  lemma Cancels(a: real, b: real, dt: real)
    requires dt > 0.0 && a * dt <= b * dt
    ensures a <= b
  {
    if a > b {
      Positive(a - b, dt, (a - b) * dt);
    }
  }

  lemma Positive(x: real, y: real, product: real)
    requires x > 0.0 && y > 0.0 && product == x * y
    ensures product > 0.0
  {
  }

  // ---- the engine ----

  /** Jitter in milliseconds, squared and quartered, on top of the baseline of 4. */
  lemma NoiseLaw(jitterUs: nat)
    ensures 4_000_000.0 * (NoiseFor(jitterUs) - 4.0) == (jitterUs * jitterUs) as real
  {
    var us := jitterUs as real;
    assert us * us == (jitterUs * jitterUs) as real;
    assert (us / 1000.0) * (us / 1000.0) * 1_000_000.0 == us * us;
  }

  /**
   * What an observation does to the level and the drift. Time advances by dt, at least 0.05; the level moves strictly
   * between where drift had led it and the sum of the two reported levels.
   */
  lemma ObservationMoves(e: Engine, o: Observation, dt: real, step: real, expected: real, reported: real)
    requires EngineOk(e) && step == (if dt < 0.05 then 0.05 else dt)
    requires expected == e.filter.level + e.filter.drift * step && reported == (o.jitterBufMs + o.ringBufMs) as real
    ensures var n := EngineStep(e, o, dt).0.filter;
            && (expected < reported ==> expected < n.level < reported && n.drift > e.filter.drift)
            && (reported < expected ==> reported < n.level < expected && n.drift < e.filter.drift)
            && (reported == expected ==> n.level == reported && n.drift == e.filter.drift)
            && 4_000_000.0 * (n.measurementNoise - 4.0) == (o.jitterP95Us * o.jitterP95Us) as real
  {
    NoiseAtLeastBaseline(o.jitterP95Us);
    NoiseLaw(o.jitterP95Us);
    var f := e.filter.(measurementNoise := NoiseFor(o.jitterP95Us));
    assert MaxReal(dt, MIN_DT) == step && TotalMs(o) == reported;
    assert Advanced(f.level, f.drift, step) == expected;
    assert Healthy(f);
    hide FilterStep, PidStep, NoiseFor, Healthy, Cov.PositiveDefinite, PredictedCov, Advanced, TotalMs, EngineOk,
         Posterior, Predicted, Gain0, Gain1;
    HealthyStep(f, step, reported);
    KeepsNoise(f, step, reported);
  }

  lemma KeepsNoise(f: Filter, dt: real, measured: real)
    ensures FilterStep(f, dt, measured).measurementNoise == f.measurementNoise
  {
    hide PredictedCov, CorrectedCov, Gain0, Gain1;
  }

  /** The decision looks the horizon ahead along the new drift, and asks the controller about that forecast. */
  lemma ObservationDecides(e: Engine, o: Observation, dt: real, step: real)
    requires step == if dt < 0.05 then 0.05 else dt
    ensures var (n, d) := EngineStep(e, o, dt);
            && d.level == n.filter.level && d.drift == n.filter.drift
            && d.predicted == d.level + d.drift * e.horizon
            && (n.pid, d.offset) == PidStep(e.pid, d.predicted, step)
            && n.lastOffset == d.offset && n.horizon == e.horizon
  {
    hide FilterStep, PidStep, NoiseFor;
  }
}

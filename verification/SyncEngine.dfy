/** Clock-drift compensation: a Kalman filter on the client's buffer level feeds a PID controller
    that sets the resampling offset. Real arithmetic stands for floating point. */
module SyncEngine {
  import opened Words
  import opened Reals
  import opened KalmanTheory

  const MAX_RESAMPLE_OFFSET_MHZ := 20.0
  const PID_INTEGRAL_CLAMP_MHZ := 50.0
  const BANG_BANG_THRESHOLD_MS := 30.0
  const DEAD_ZONE_MS := 5.0
  const DEGENERATE := 0.000000001
  const MIN_DT := 0.05

  function ClampReal(x: real, bound: real): real {
    if x < -bound then -bound else if x > bound then bound else x
  }

  /** A value moved along a rate. */
  function Advanced(x: real, rate: real, amount: real): real {
    x + rate * amount
  }

  // ---- the filter ----

  datatype Filter = Filter(
    level: real, drift: real, cov: Cov, bufferNoise: real, driftNoise: real, measurementNoise: real)

  function NewFilter(initial: real): Filter {
    Filter(initial, 0.0, Cov(100.0, 0.0, 1.0), 0.5, 0.01, 4.0)
  }

  /** Measurement noise for a reported jitter: 4 ms^2 and a quarter of the jitter squared. */
  function NoiseFor(jitterUs: nat): real {
    var ms := (jitterUs as real) / 1000.0;
    4.0 + ms * ms * 0.25
  }

  /** One textbook step: predict over dt, then correct with the measured level at the optimal gain. */
  function FilterStep(f: Filter, dt: real, measured: real): Filter {
    Correct(PredictAhead(f, dt), measured)
  }

  function PredictAhead(f: Filter, dt: real): Filter {
    f.(level := Advanced(f.level, f.drift, dt), cov := PredictedCov(f.cov, dt, f.bufferNoise, f.driftNoise))
  }

  function Correct(f: Filter, measured: real): Filter {
    var s := f.cov.p00 + f.measurementNoise;
    if Magnitude(s) < DEGENERATE then f
    else
      f.(level := Advanced(f.level, Gain0(f.cov, f.measurementNoise), measured - f.level),
         drift := Advanced(f.drift, Gain1(f.cov, f.measurementNoise), measured - f.level),
         cov := CorrectedCov(f.cov, f.measurementNoise))
  }

  predicate Healthy(f: Filter) {
    && f.cov.PositiveDefinite()
    && f.bufferNoise >= 0.0 && f.driftNoise >= 0.0 && f.measurementNoise >= 4.0
    && f.cov.p01 >= 0.0
  }

  class BufferKalmanFilter {
    var bufferMs: real
    var driftRate: real
    var p00: real
    var p01: real
    var p11: real
    var processNoiseBuffer: real
    var processNoiseDrift: real
    var measurementNoise: real

    function State(): Filter
      reads this
    {
      Filter(bufferMs, driftRate, Cov(p00, p01, p11), processNoiseBuffer, processNoiseDrift, measurementNoise)
    }

    constructor (initial: real)
      ensures State() == NewFilter(initial)
    {
      bufferMs, driftRate := initial, 0.0;
      p00, p01, p11 := 100.0, 0.0, 1.0;
      processNoiseBuffer, processNoiseDrift, measurementNoise := 0.5, 0.01, 4.0;
    }

    method SetJitterP95Us(jitterUs: nat)
      modifies this`measurementNoise
      ensures State() == old(State()).(measurementNoise := NoiseFor(jitterUs))
    {
      var jitterMs := (jitterUs as real) / 1000.0;
      measurementNoise := 4.0 + jitterMs * jitterMs * 0.25;
    }

    method Step(dt: real, measured: real)
      modifies this`bufferMs, this`driftRate, this`p00, this`p01, this`p11
      ensures State() == FilterStep(old(State()), dt, measured)
    {
      hide State, PredictAhead, Correct;
      PredictOver(dt);
      CorrectWith(measured);
    }

    method PredictOver(dt: real)
      modifies this`bufferMs, this`p00, this`p01, this`p11
      ensures State() == PredictAhead(old(State()), dt)
    {
      bufferMs := Advanced(bufferMs, driftRate, dt);
      var p00New := p00 + 2.0 * dt * p01 + dt * dt * p11;
      var p01New := p01 + dt * p11;
      p00, p01, p11 := p00New + processNoiseBuffer, p01New, p11 + processNoiseDrift;
    }

    method CorrectWith(measured: real)
      modifies this`bufferMs, this`driftRate, this`p00, this`p01, this`p11
      ensures State() == Correct(old(State()), measured)
    {
      var s := p00 + measurementNoise;
      if !(Magnitude(s) < DEGENERATE) {
        var k0 := p00 / s;
        var k1 := p01 / s;
        var innovation := measured - bufferMs;
        bufferMs := Advanced(bufferMs, k0, innovation);
        driftRate := Advanced(driftRate, k1, innovation);
        p00, p01, p11 := (1.0 - k0) * p00, (1.0 - k0) * p01, -k1 * p01 + p11;
      }
    }

    function Predict(horizon: real): real
      reads this
    {
      Advanced(bufferMs, driftRate, horizon)
    }
  }

  /** In a healthy filter, with time moving forward: the early exit is dead; the filter stays healthy;
      its covariance is the general posterior at a gain that no other gain beats; the new level lies
      strictly between prediction and measurement when they differ; its variance is below the
      measurement noise; and the drift moves with the sign of the surprise. */
  lemma HealthyStep(f: Filter, dt: real, measured: real)
    requires Healthy(f) && dt > 0.0
    ensures var n, predicted := FilterStep(f, dt, measured), Advanced(f.level, f.drift, dt);
            var p, r := PredictedCov(f.cov, dt, f.bufferNoise, f.driftNoise), f.measurementNoise;
            && p.p00 + r >= DEGENERATE
            && Healthy(n) && n.cov.p01 > 0.0
            && p.ToMatrix() == Predicted(f.cov, dt, f.bufferNoise, f.driftNoise)
            && n.cov.ToMatrix() == Posterior(p, Gain0(p, r), Gain1(p, r), r)
            && n.cov.p00 < r && n.cov.p00 < p.p00
            && (measured > predicted ==> predicted < n.level < measured && n.drift > f.drift)
            && (measured < predicted ==> measured < n.level < predicted && n.drift < f.drift)
            && (measured == predicted ==> n.level == predicted && n.drift == f.drift)
  {
    var p, r := PredictedCov(f.cov, dt, f.bufferNoise, f.driftNoise), f.measurementNoise;
    PredictionStaysPositive(f.cov, dt, f.bufferNoise, f.driftNoise);
    PredictionMatches(f.cov, dt, f.bufferNoise, f.driftNoise);
    hide PredictedCov, Predicted, Advanced;
    CorrectionStaysPositive(p, r);
    CorrectionMatches(p, r);
    hide CorrectedCov, Gain0, Gain1, Posterior, Correct, Cov.Determinant;
    Corrects(PredictAhead(f, dt), measured);
  }

  lemma Corrects(f: Filter, measured: real)
    requires f.cov.p00 + f.measurementNoise >= DEGENERATE
    requires 0.0 < Gain0(f.cov, f.measurementNoise) < 1.0 && Gain1(f.cov, f.measurementNoise) > 0.0
    ensures var n := Correct(f, measured);
            && n == f.(level := n.level, drift := n.drift, cov := CorrectedCov(f.cov, f.measurementNoise))
            && (measured > f.level ==> f.level < n.level < measured && n.drift > f.drift)
            && (measured < f.level ==> measured < n.level < f.level && n.drift < f.drift)
            && (measured == f.level ==> n.level == f.level && n.drift == f.drift)
  {
    hide CorrectedCov, Gain0, Gain1, Advanced;
    Between(f.level, measured, Gain0(f.cov, f.measurementNoise));
    Moves(f.drift, measured - f.level, Gain1(f.cov, f.measurementNoise));
  }

  lemma Between(from: real, to: real, k: real)
    requires 0.0 < k < 1.0
    ensures from < to ==> from < Advanced(from, k, to - from) < to
    ensures to < from ==> to < Advanced(from, k, to - from) < from
    ensures to == from ==> Advanced(from, k, to - from) == from
  {
    if from < to {
      ProductIsPositive(k, to - from, k * (to - from));
      ProductIsPositive(1.0 - k, to - from, (1.0 - k) * (to - from));
    } else if to < from {
      ProductIsPositive(k, from - to, k * (from - to));
      ProductIsPositive(1.0 - k, from - to, (1.0 - k) * (from - to));
    }
  }

  lemma Moves(x: real, surprise: real, k: real)
    requires k > 0.0
    ensures surprise > 0.0 ==> Advanced(x, k, surprise) > x
    ensures surprise < 0.0 ==> Advanced(x, k, surprise) < x
    ensures surprise == 0.0 ==> Advanced(x, k, surprise) == x
  {
    if surprise > 0.0 {
      ProductIsPositive(k, surprise, k * surprise);
    } else if surprise < 0.0 {
      ProductIsPositive(k, -surprise, k * (-surprise));
    }
  }

  // ---- the controller ----

  datatype Pid = Pid(
    kp: real, ki: real, kd: real, target: real, integral: real, lastError: Option<real>,
    lastDFiltered: real, dFilterAlpha: real, frozen: bool)

  function NewPid(target: real): Pid {
    Pid(0.30, 0.02, 0.10, target, 0.0, None, 0.0, 0.6, false)
  }

  function PidStep(c: Pid, predicted: real, dt: real): (Pid, real) {
    var error := c.target - predicted;
    if Magnitude(error) > BANG_BANG_THRESHOLD_MS then
      (c.(lastError := Some(error)), if error < 0.0 then -MAX_RESAMPLE_OFFSET_MHZ else MAX_RESAMPLE_OFFSET_MHZ)
    else if Magnitude(error) < DEAD_ZONE_MS then
      (c.(lastError := Some(error), lastDFiltered := Decayed(c.lastDFiltered, c.dFilterAlpha)), 0.0)
    else LinearStep(c, error, dt)
  }

  function Decayed(x: real, alpha: real): real {
    x * (1.0 - alpha)
  }

  function Integrated(integral: real, error: real, dt: real): real {
    ClampReal(Advanced(integral, error, dt), PID_INTEGRAL_CLAMP_MHZ)
  }

  function Slope(lastError: Option<real>, error: real, dt: real): real {
    if lastError.Some? then (error - lastError.value) / MaxReal(dt, 0.000001) else 0.0
  }

  function Smoothed(alpha: real, slope: real, last: real): real {
    alpha * slope + (1.0 - alpha) * last
  }

  function Output(kp: real, ki: real, kd: real, error: real, integral: real, filtered: real): real {
    ClampReal(kp * error + ki * integral + kd * filtered, MAX_RESAMPLE_OFFSET_MHZ)
  }

  function LinearStep(c: Pid, error: real, dt: real): (Pid, real) {
    var integral := if c.frozen then c.integral else Integrated(c.integral, error, dt);
    var filtered := Smoothed(c.dFilterAlpha, Slope(c.lastError, error, dt), c.lastDFiltered);
    (c.(integral := integral, lastError := Some(error), lastDFiltered := filtered),
     Output(c.kp, c.ki, c.kd, error, integral, filtered))
  }

  /** The controller with every error it remembers turned round. */
  function Mirrored(c: Pid): Pid {
    c.(integral := -c.integral, lastDFiltered := -c.lastDFiltered,
       lastError := match c.lastError case None => None case Some(e) => Some(-e))
  }

  lemma IntegratedIsOdd(integral: real, error: real, dt: real)
    ensures Integrated(-integral, -error, dt) == -Integrated(integral, error, dt)
  {
    assert (-error) * dt == -(error * dt);
  }

  lemma SlopeIsOdd(last: real, error: real, dt: real)
    ensures Slope(Some(-last), -error, dt) == -Slope(Some(last), error, dt)
  {
    var step := MaxReal(dt, 0.000001);
    NegatedQuotient(error - last, step);
  }

  lemma NegatedQuotient(a: real, b: real)
    requires b > 0.0
    ensures (-a) / b == -(a / b)
  {
  }

  lemma SmoothedIsOdd(alpha: real, slope: real, last: real)
    ensures Smoothed(alpha, -slope, -last) == -Smoothed(alpha, slope, last)
    ensures Decayed(-last, alpha) == -Decayed(last, alpha)
  {
  }

  lemma OutputIsOdd(kp: real, ki: real, kd: real, error: real, integral: real, filtered: real)
    ensures Output(kp, ki, kd, -error, -integral, -filtered) == -Output(kp, ki, kd, error, integral, filtered)
  {
  }

  /** The controller treats a buffer that is too full exactly as one that is as much too empty, with the sign
      turned round: its state stays mirrored and its output is the negative. */
  lemma PidIsOdd(c: Pid, predicted: real, dt: real)
    ensures PidStep(Mirrored(c), 2.0 * c.target - predicted, dt)
         == (Mirrored(PidStep(c, predicted, dt).0), -PidStep(c, predicted, dt).1)
  {
    var error := c.target - predicted;
    IntegratedIsOdd(c.integral, error, dt);
    if c.lastError.Some? {
      SlopeIsOdd(c.lastError.value, error, dt);
    }
    var slope := Slope(c.lastError, error, dt);
    SmoothedIsOdd(c.dFilterAlpha, slope, c.lastDFiltered);
    var integral := if c.frozen then c.integral else Integrated(c.integral, error, dt);
    OutputIsOdd(c.kp, c.ki, c.kd, error, integral, Smoothed(c.dFilterAlpha, slope, c.lastDFiltered));
    NoSlopeIsOdd(error, dt);
    hide Integrated, Slope, Smoothed, Decayed, Output;
  }

  lemma NoSlopeIsOdd(error: real, dt: real)
    ensures Slope(None, -error, dt) == -Slope(None, error, dt)
  {
  }

  class ResamplePidController {
    var kp: real
    var ki: real
    var kd: real
    var targetBufferMs: real
    var integral: real
    var lastError: Option<real>
    var lastDFiltered: real
    var dFilterAlpha: real
    var integralFrozen: bool

    function State(): Pid
      reads this
    {
      Pid(kp, ki, kd, targetBufferMs, integral, lastError, lastDFiltered, dFilterAlpha, integralFrozen)
    }

    constructor (target: real)
      ensures State() == NewPid(target)
    {
      kp, ki, kd, targetBufferMs := 0.30, 0.02, 0.10, target;
      integral, lastError, lastDFiltered := 0.0, None, 0.0;
      dFilterAlpha, integralFrozen := 0.6, false;
    }

    method SetYellow()
      modifies this`kp, this`integralFrozen
      ensures State() == old(State()).(kp := 0.20, frozen := true)
    {
      integralFrozen, kp := true, 0.20;
    }

    method SetGreen()
      modifies this`kp, this`integralFrozen
      ensures State() == old(State()).(kp := 0.30, frozen := false)
    {
      integralFrozen, kp := false, 0.30;
    }

    method Step(predicted: real, dt: real) returns (offset: real)
      modifies this`integral, this`lastError, this`lastDFiltered
      ensures (State(), offset) == PidStep(old(State()), predicted, dt)
    {
      var error := targetBufferMs - predicted;
      if Magnitude(error) > BANG_BANG_THRESHOLD_MS {
        lastError := Some(error);
        offset := if error < 0.0 then -MAX_RESAMPLE_OFFSET_MHZ else MAX_RESAMPLE_OFFSET_MHZ;
      } else if Magnitude(error) < DEAD_ZONE_MS {
        lastError := Some(error);
        lastDFiltered := Decayed(lastDFiltered, dFilterAlpha);
        offset := 0.0;
      } else {
        hide LinearStep;
        offset := StepLinear(error, dt);
      }
    }

    method StepLinear(error: real, dt: real) returns (offset: real)
      modifies this`integral, this`lastError, this`lastDFiltered
      ensures (State(), offset) == LinearStep(old(State()), error, dt)
    {
      hide Integrated, Slope, Smoothed, Output;
      if !integralFrozen {
        integral := Integrated(integral, error, dt);
      }
      var derivativeRaw := Slope(lastError, error, dt);
      lastDFiltered := Smoothed(dFilterAlpha, derivativeRaw, lastDFiltered);
      lastError := Some(error);
      offset := Output(kp, ki, kd, error, integral, lastDFiltered);
    }
  }

  predicate Bounded(c: Pid) {
    Magnitude(c.integral) <= PID_INTEGRAL_CLAMP_MHZ
  }

  /** The output never leaves the audible-pitch band and takes its full value against a large error; the
      integral never leaves its own band, moves only in the linear band, and not at all when frozen. */
  lemma PidStepBounds(c: Pid, predicted: real, dt: real)
    requires Bounded(c)
    ensures var (n, offset) := PidStep(c, predicted, dt);
            var error := c.target - predicted;
            && Magnitude(offset) <= MAX_RESAMPLE_OFFSET_MHZ
            && Bounded(n)
            && (error > BANG_BANG_THRESHOLD_MS ==> offset == MAX_RESAMPLE_OFFSET_MHZ)
            && (error < -BANG_BANG_THRESHOLD_MS ==> offset == -MAX_RESAMPLE_OFFSET_MHZ)
            && (Magnitude(error) < DEAD_ZONE_MS ==> offset == 0.0)
            && (n.integral != c.integral ==> !c.frozen && DEAD_ZONE_MS <= Magnitude(error) <= BANG_BANG_THRESHOLD_MS)
            && n.target == c.target && n.kp == c.kp && n.frozen == c.frozen
  {
  }

  // ---- the engine ----

  datatype Observation = Observation(jitterBufMs: nat, ringBufMs: nat, jitterP95Us: nat)

  datatype Engine = Engine(filter: Filter, pid: Pid, horizon: real, lastOffset: real)

  datatype Decision = Decision(level: real, drift: real, predicted: real, offset: real)

  function TotalMs(o: Observation): real {
    o.jitterBufMs as real + o.ringBufMs as real
  }

  function EngineStep(e: Engine, o: Observation, dt: real): (Engine, Decision) {
    var step := MaxReal(dt, MIN_DT);
    var f := FilterStep(e.filter.(measurementNoise := NoiseFor(o.jitterP95Us)), step, TotalMs(o));
    var predicted := Advanced(f.level, f.drift, e.horizon);
    var (pid, offset) := PidStep(e.pid, predicted, step);
    (Engine(f, pid, e.horizon, offset), Decision(f.level, f.drift, predicted, offset))
  }

  predicate EngineOk(e: Engine) {
    Healthy(e.filter) && Bounded(e.pid) && Magnitude(e.lastOffset) <= MAX_RESAMPLE_OFFSET_MHZ
  }

  class AudioSyncEngine {
    const kalman: BufferKalmanFilter
    const pid: ResamplePidController
    var forecastHorizonSeconds: real
    var lastOffsetMhz: real

    function State(): Engine
      reads this, kalman, pid
    {
      Engine(kalman.State(), pid.State(), forecastHorizonSeconds, lastOffsetMhz)
    }

    constructor (target: real, initial: real)
      ensures State() == NewEngine(target, initial)
      ensures fresh(kalman) && fresh(pid)
    {
      kalman := new BufferKalmanFilter(initial);
      pid := new ResamplePidController(target);
      forecastHorizonSeconds, lastOffsetMhz := 2.0, 0.0;
    }

    method Observe(o: Observation, dt: real) returns (d: Decision)
      modifies this`lastOffsetMhz, kalman, pid`integral, pid`lastError, pid`lastDFiltered
      ensures (State(), d) == EngineStep(old(State()), o, dt)
    {
      var dtSecs := MaxReal(dt, MIN_DT);
      kalman.SetJitterP95Us(o.jitterP95Us);
      kalman.Step(dtSecs, TotalMs(o));
      var predicted := kalman.Predict(forecastHorizonSeconds);
      var offset := pid.Step(predicted, dtSecs);
      lastOffsetMhz := offset;
      d := Decision(kalman.bufferMs, kalman.driftRate, predicted, offset);
    }
  }

  lemma NoiseAtLeastBaseline(jitterUs: nat)
    ensures NoiseFor(jitterUs) >= 4.0
  {
    Square((jitterUs as real) / 1000.0);
  }

  lemma ObserveKeeps(e: Engine, o: Observation, dt: real)
    requires EngineOk(e)
    ensures EngineOk(EngineStep(e, o, dt).0)
    ensures var c := EngineStep(e, o, dt).0.pid;
            c.target == e.pid.target && c.kp == e.pid.kp && c.frozen == e.pid.frozen
    ensures e.pid.frozen ==> EngineStep(e, o, dt).0.pid.integral == e.pid.integral
  {
    NoiseAtLeastBaseline(o.jitterP95Us);
    var f := e.filter.(measurementNoise := NoiseFor(o.jitterP95Us));
    var step := MaxReal(dt, MIN_DT);
    HealthyStep(f, step, TotalMs(o));
    var n := FilterStep(f, step, TotalMs(o));
    PidStepBounds(e.pid, Advanced(n.level, n.drift, e.horizon), step);
    hide FilterStep, PidStep, NoiseFor;
  }

  /** All engine states after a run of observations. */
  function RunEngine(e: Engine, observations: seq<(Observation, real)>): Engine
    decreases |observations|
  {
    if observations == [] then e
    else RunEngine(EngineStep(e, observations[0].0, observations[0].1).0, observations[1..])
  }

  /** Over every run of observations, at whatever intervals and jitter: the covariance stays positive
      definite with a non-negative cross term, and offset and integral stay in their bands. */
  lemma {:induction false} RunKeeps(e: Engine, observations: seq<(Observation, real)>)
    requires EngineOk(e)
    ensures EngineOk(RunEngine(e, observations))
    decreases |observations|
  {
    hide EngineOk, EngineStep;
    if observations != [] {
      ObserveKeeps(e, observations[0].0, observations[0].1);
      RunKeeps(EngineStep(e, observations[0].0, observations[0].1).0, observations[1..]);
    }
  }

  function NewEngine(target: real, initial: real): Engine {
    Engine(NewFilter(initial), NewPid(target), 2.0, 0.0)
  }

  lemma NewEngineOk(target: real, initial: real)
    ensures EngineOk(NewEngine(target, initial))
  {
  }

  /** Every engine that was ever constructed and then run, spelled out. */
  lemma RunFromNew(target: real, initial: real, observations: seq<(Observation, real)>)
    ensures var e := RunEngine(NewEngine(target, initial), observations);
            && e.filter.cov.PositiveDefinite() && e.filter.cov.p01 >= 0.0
            && e.filter.measurementNoise >= 4.0
            && Magnitude(e.pid.integral) <= PID_INTEGRAL_CLAMP_MHZ
  {
    NewEngineOk(target, initial);
    RunKeeps(NewEngine(target, initial), observations);
    hide RunEngine, Cov.PositiveDefinite;
  }
}

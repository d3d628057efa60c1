/** The coordinator that lets the watchdog's tier freeze the controller's integral. */
module AdaptiveRuntime {
  import opened Words
  import W = Watchdog
  import S = SyncEngine

  datatype Runtime = Runtime(dog: W.Dog, engine: S.Engine, lastTier: W.Tier)

  datatype Sample = Sample(
    cpu: Option<real>, queueDepth: nat, queueCapacity: nat, droppedFrames: nat,
    watermark: Option<S.Observation>)

  function SignalsOf(x: Sample): W.Signals {
    W.Signals(if x.cpu.Some? then x.cpu.value else 0.0, x.droppedFrames, x.queueDepth, x.queueCapacity)
  }

  function Seconds(cadence: W.duration): real {
    (cadence as real) / 1_000_000_000.0
  }

  /** The controller tuned for a tier: its integral is frozen below Green. */
  function Tuned(c: S.Pid, tier: W.Tier): S.Pid {
    if tier.Green? then c.(kp := 0.30, frozen := false) else c.(kp := 0.20, frozen := true)
  }

  function RuntimeTick(cfg: W.Config, cadence: W.duration, r: Runtime, x: Sample): Runtime {
    var dog := W.DogTick(cfg, r.dog, SignalsOf(x), cadence);
    var tuned := r.engine.(pid := Tuned(r.engine.pid, dog.tier));
    var engine := if x.watermark.Some? then S.EngineStep(tuned, x.watermark.value, Seconds(cadence)).0 else tuned;
    Runtime(dog, engine, dog.tier)
  }

  datatype AdaptiveDecision = AdaptiveDecision(
    tier: W.Tier, previousTier: W.Tier, predictedCpu: real, predictedBufferMs: real, driftRate: real, offsetMhz: real)

  /** What a tick reports: with an observation the engine's decision, else the engine's present state. */
  function DecisionOf(cfg: W.Config, cadence: W.duration, r: Runtime, x: Sample): AdaptiveDecision {
    var result := W.Reported(r.dog, W.DogTick(cfg, r.dog, SignalsOf(x), cadence));
    var tuned := r.engine.(pid := Tuned(r.engine.pid, result.tier));
    match x.watermark
    case Some(o) =>
      var d := S.EngineStep(tuned, o, Seconds(cadence)).1;
      AdaptiveDecision(result.tier, result.previousTier, result.predictedCpu, d.predicted, d.drift, d.offset)
    case None =>
      AdaptiveDecision(result.tier, result.previousTier, result.predictedCpu,
                       tuned.filter.level, tuned.filter.drift, tuned.lastOffset)
  }

  /** The decision reports the state the tick leaves; the predicted level looks ahead only after an observation. */
  lemma DecisionReportsState(cfg: W.Config, cadence: W.duration, r: Runtime, x: Sample)
    ensures var d, n := DecisionOf(cfg, cadence, r, x), RuntimeTick(cfg, cadence, r, x);
            && d.tier == n.dog.tier == n.lastTier && d.previousTier == r.dog.tier
            && d.predictedCpu == W.Forecast(n.dog.predictor)
            && d.driftRate == n.engine.filter.drift && d.offsetMhz == n.engine.lastOffset
            && d.predictedBufferMs == (if x.watermark.Some?
                                       then S.Advanced(n.engine.filter.level, n.engine.filter.drift, n.engine.horizon)
                                       else n.engine.filter.level)
  {
    hide W.DogTick, W.Forecast, S.FilterStep, S.PidStep, S.Advanced;
  }

  class AdaptiveRuntime {
    const watchdog: W.CpuWatchdog
    const syncEngine: S.AudioSyncEngine
    const cadence: W.duration
    var lastObservedTier: W.Tier

    function State(): Runtime
      reads this, watchdog, watchdog.predictor, syncEngine, syncEngine.kalman, syncEngine.pid
    {
      Runtime(watchdog.State(), syncEngine.State(), lastObservedTier)
    }

    constructor (cfg: W.Config, horizon: real, target: real, initial: real, cadence: W.duration)
      ensures watchdog.cfg == cfg && this.cadence == cadence
      ensures State() == Runtime(W.NewDog(horizon),
                                 S.Engine(S.NewFilter(initial), S.NewPid(target), 2.0, 0.0), W.Green)
    {
      watchdog := new W.CpuWatchdog(cfg, horizon);
      syncEngine := new S.AudioSyncEngine(target, initial);
      this.cadence := cadence;
      lastObservedTier := W.Green;
    }

    method Tick(x: Sample) returns (decision: AdaptiveDecision)
      modifies this, watchdog, watchdog.predictor, syncEngine, syncEngine.kalman, syncEngine.pid
      ensures State() == RuntimeTick(watchdog.cfg, cadence, old(State()), x)
      ensures decision == DecisionOf(watchdog.cfg, cadence, old(State()), x)
    {
      hide W.DogTick, W.Forecast, S.EngineStep;
      var result := watchdog.Tick(SignalsOf(x), cadence);
      if result.tier.Green? {
        syncEngine.pid.SetGreen();
      } else {
        syncEngine.pid.SetYellow();
      }
      var predicted, drift, offset := syncEngine.kalman.bufferMs, syncEngine.kalman.driftRate, syncEngine.lastOffsetMhz;
      if x.watermark.Some? {
        var observed := syncEngine.Observe(x.watermark.value, Seconds(cadence));
        predicted, drift, offset := observed.predicted, observed.drift, observed.offset;
      }
      lastObservedTier := result.tier;
      decision := AdaptiveDecision(result.tier, result.previousTier, result.predictedCpu, predicted, drift, offset);
    }
  }

  // ---- whole runs ----

  function Run(cfg: W.Config, cadence: W.duration, r: Runtime, xs: seq<Sample>): Runtime
    decreases |xs|
  {
    if xs == [] then r else Run(cfg, cadence, RuntimeTick(cfg, cadence, r, xs[0]), xs[1..])
  }

  /** The controller is frozen, with its lower gain, exactly below Green. */
  predicate Coupled(r: Runtime) {
    && S.EngineOk(r.engine)
    && r.lastTier == r.dog.tier
    && r.engine.pid.frozen == !r.dog.tier.Green?
    && r.engine.pid.kp == (if r.dog.tier.Green? then 0.30 else 0.20)
  }

  /** A tick that ends below Green leaves the integral as it was, even the tick that degrades; and with
      no report from a client nothing but the tuning changes in the controller. */
  lemma TickCouples(cfg: W.Config, cadence: W.duration, r: Runtime, x: Sample)
    requires S.EngineOk(r.engine)
    ensures var n := RuntimeTick(cfg, cadence, r, x);
            && Coupled(n)
            && (!n.dog.tier.Green? ==> n.engine.pid.integral == r.engine.pid.integral)
            && (x.watermark.None? ==> n.engine == r.engine.(pid := Tuned(r.engine.pid, n.dog.tier)))
  {
    hide W.DogTick, S.EngineStep, S.Healthy;
    var dog := W.DogTick(cfg, r.dog, SignalsOf(x), cadence);
    var tuned := r.engine.(pid := Tuned(r.engine.pid, dog.tier));
    if x.watermark.Some? {
      S.ObserveKeeps(tuned, x.watermark.value, Seconds(cadence));
    }
  }

  /** Across any stretch of ticks that all end below Green, the integral does not move at all. */
  predicate StaysDegraded(cfg: W.Config, cadence: W.duration, r: Runtime, xs: seq<Sample>)
    decreases |xs|
  {
    xs != [] ==>
      && !RuntimeTick(cfg, cadence, r, xs[0]).dog.tier.Green?
      && StaysDegraded(cfg, cadence, RuntimeTick(cfg, cadence, r, xs[0]), xs[1..])
  }

  lemma {:induction false} DegradedRunFreezesIntegral(cfg: W.Config, cadence: W.duration, r: Runtime, xs: seq<Sample>)
    requires S.EngineOk(r.engine) && StaysDegraded(cfg, cadence, r, xs)
    ensures Run(cfg, cadence, r, xs).engine.pid.integral == r.engine.pid.integral
    ensures S.EngineOk(Run(cfg, cadence, r, xs).engine)
    decreases |xs|
  {
    hide RuntimeTick, S.EngineOk;
    if xs != [] {
      TickKeepsEngine(cfg, cadence, r, xs[0]);
      DegradedRunFreezesIntegral(cfg, cadence, RuntimeTick(cfg, cadence, r, xs[0]), xs[1..]);
    }
  }

  lemma TickKeepsEngine(cfg: W.Config, cadence: W.duration, r: Runtime, x: Sample)
    requires S.EngineOk(r.engine)
    ensures S.EngineOk(RuntimeTick(cfg, cadence, r, x).engine)
    ensures !RuntimeTick(cfg, cadence, r, x).dog.tier.Green? ==>
              RuntimeTick(cfg, cadence, r, x).engine.pid.integral == r.engine.pid.integral
  {
    hide RuntimeTick, S.EngineOk;
    TickCouples(cfg, cadence, r, x);
    CoupledEngine(RuntimeTick(cfg, cadence, r, x));
  }

  lemma CoupledEngine(r: Runtime)
    requires Coupled(r)
    ensures S.EngineOk(r.engine)
  {
  }
}

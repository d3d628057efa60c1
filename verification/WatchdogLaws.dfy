/** The watchdog's decisions, said on the raw signals, the thresholds and the state before and after a tick. */
module WatchdogLaws {
  import opened Words
  import opened Watchdog
  import A = AdaptiveRuntime
  import S = SyncEngine

  /** A whole queue's worth: without a queue its level counts as zero. */
  predicate FillReaches(depth: nat, capacity: nat, ratio: real) {
    if capacity == 0 then ratio <= 0.0 else depth as real >= ratio * capacity as real
  }

  lemma RatioReaches(s: Signals, ratio: real)
    ensures QueueRatio(s) >= ratio <==> FillReaches(s.queueDepth, s.queueCapacity, ratio)
  {
    if s.queueCapacity > 0 {
      QuotientReaches(s.queueDepth as real, s.queueCapacity as real, s.queueDepth as real / s.queueCapacity as real,
                      ratio);
    }
  }

  lemma QuotientReaches(a: real, b: real, q: real, ratio: real)
    requires b > 0.0 && q * b == a
    ensures q >= ratio <==> a >= ratio * b
  {
    assert (q - ratio) * b == a - ratio * b;
    SameSign(q - ratio, b);
  }

  lemma SameSign(x: real, b: real)
    requires b > 0.0
    ensures x >= 0.0 <==> x * b >= 0.0
  {
  }

  /** The load calls for Red: the forecast, the dropped frames or the queue reach their red threshold. */
  predicate RedLoad(cfg: Config, forecast: real, dropped: nat, depth: nat, capacity: nat) {
    forecast >= cfg.redCpu || dropped >= cfg.redDropStreak || FillReaches(depth, capacity, cfg.redQueue)
  }

  predicate YellowLoad(cfg: Config, forecast: real, depth: nat, capacity: nat) {
    forecast >= cfg.yellowCpu || FillReaches(depth, capacity, cfg.yellowQueue)
  }

  /** The tier asked for, as an equivalence with the thresholds. */
  lemma DesiredExactly(cfg: Config, forecast: real, s: Signals)
    ensures var red := RedLoad(cfg, forecast, s.droppedFrames, s.queueDepth, s.queueCapacity);
            && (DesiredTier(cfg, forecast, s) == Red <==> red)
            && (DesiredTier(cfg, forecast, s) == Yellow <==>
                  !red && YellowLoad(cfg, forecast, s.queueDepth, s.queueCapacity))
  {
    hide QueueRatio, FillReaches;
    RatioReaches(s, cfg.redQueue);
    RatioReaches(s, cfg.yellowQueue);
  }

  /** One sample moves average and trend three tenths of the way, and the forecast looks ahead along the trend,
      within 0 and 100. */
  predicate Moved(p: Predictor, n: Predictor, cpu: real, forecast: real) {
    && 10.0 * n.ewma == 7.0 * p.ewma + 3.0 * cpu
    && 10.0 * n.trend == 7.0 * p.trend + 3.0 * (cpu - p.lastSample)
    && n.lastSample == cpu && n.horizon == p.horizon
    && var ahead := n.ewma + n.trend * n.horizon;
       forecast == if ahead < 0.0 then 0.0 else if ahead > 100.0 then 100.0 else ahead
  }

  lemma SampleMoves(p: Predictor, cpu: real)
    ensures Moved(p, Sampled(p, cpu), cpu, Forecast(Sampled(p, cpu)))
  {
  }

  /** The tier after a tick: worse at once, better only after the hold time, and the streak counts up outside Green. */
  predicate Decided(cfg: Config, w: Dog, n: Dog, red: bool, yellow: bool, grown: int) {
    && (red ==> n.tier == Red && n.streak == if w.tier == Red then grown else 0)
    && (!red && w.tier == Red ==>
          if grown < cfg.upgradeHold then n.tier == Red && n.streak == grown
          else n.streak == 0 && n.tier == if yellow then Yellow else Green)
    && (!red && yellow && w.tier != Red ==> n.tier == Yellow && n.streak == if w.tier == Yellow then grown else 0)
    && (!red && !yellow && w.tier == Yellow ==>
          if grown < cfg.upgradeHold then n.tier == Yellow && n.streak == grown
          else n.tier == Green && n.streak == 0)
    && (!red && !yellow && w.tier == Green ==> n.tier == Green && n.streak == 0)
  }

  /** The state of the watchdog a tick later, from the raw signals alone. */
  predicate Ticked(cfg: Config, cadence: duration, w: Dog, n: Dog, cpu: real, dropped: nat, depth: nat,
                   capacity: nat, forecast: real, grown: int)
  {
    && Moved(w.predictor, n.predictor, cpu, forecast)
    && Decided(cfg, w, n, RedLoad(cfg, forecast, dropped, depth, capacity),
               YellowLoad(cfg, forecast, depth, capacity), grown)
  }

  /** What the streak grows to: it stops at the largest duration the clock can hold. */
  predicate Grows(streak: duration, cadence: duration, grown: int) {
    grown == if streak + cadence > 18_446_744_073_709_551_615_999_999_999
             then 18_446_744_073_709_551_615_999_999_999 else streak + cadence
  }

  lemma TickExactly(cfg: Config, w: Dog, s: Signals, cadence: duration, grown: int)
    requires Grows(w.streak, cadence, grown)
    ensures var n := DogTick(cfg, w, s, cadence);
            Ticked(cfg, cadence, w, n, s.cpu, s.droppedFrames, s.queueDepth, s.queueCapacity, Forecast(n.predictor),
                   grown)
  {
    hide Moved, RedLoad, YellowLoad, DesiredTier, Sampled, Forecast;
    SampleMoves(w.predictor, s.cpu);
    DesiredExactly(cfg, Forecast(Sampled(w.predictor, s.cpu)), s);
  }

  /** The runtime's tick, from a raw sample: no load reading counts as an idle processor, and the controller is
      tuned by the tier of this very tick before it sees the observation. */
  lemma RuntimeExactly(cfg: Config, cadence: duration, r: A.Runtime, x: A.Sample, grown: int, seconds: real)
    requires Grows(r.dog.streak, cadence, grown) && seconds * 1_000_000_000.0 == cadence as real
    ensures var n := A.RuntimeTick(cfg, cadence, r, x);
            var tuned := r.engine.(pid := r.engine.pid.(
              kp := if n.dog.tier == Green then 0.30 else 0.20, frozen := n.dog.tier != Green));
            && Ticked(cfg, cadence, r.dog, n.dog, if x.cpu.Some? then x.cpu.value else 0.0, x.droppedFrames,
                      x.queueDepth, x.queueCapacity, Forecast(n.dog.predictor), grown)
            && n.lastTier == n.dog.tier
            && n.engine == if x.watermark.Some? then S.EngineStep(tuned, x.watermark.value, seconds).0 else tuned
  {
    TickExactly(cfg, r.dog, A.SignalsOf(x), cadence, grown);
    assert seconds == A.Seconds(cadence);
    hide Ticked, S.EngineStep, DogTick, A.Seconds;
  }

  /** How a watchdog begins: in Green, with nothing seen. */
  lemma NewDogIs(horizon: real)
    ensures var w := NewDog(horizon);
            && w.tier == Green && w.streak == 0 && w.predictor.horizon == horizon
            && w.predictor.ewma == 0.0 && w.predictor.trend == 0.0 && w.predictor.lastSample == 0.0
  {
  }
}

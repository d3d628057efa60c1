/** The CPU watchdog: a forecast of process load and a three-tier machine that degrades at once and
    recovers only after a hold time. Durations are in nanoseconds. */
module Watchdog {
  import opened Words
  import opened Reals

  const MAX_DURATION := 0xFFFF_FFFF_FFFF_FFFF * 1_000_000_000 + 999_999_999

  type duration = d: int | 0 <= d <= MAX_DURATION

  datatype Tier = Green | Yellow | Red {
    function Index(): nat {
      match this
      case Green => 0
      case Yellow => 1
      case Red => 2
    }
  }

  function SaturatingAdd(a: duration, b: duration): duration {
    Min(a + b, MAX_DURATION)
  }

  // ---- the forecast ----

  datatype Predictor = Predictor(ewma: real, trend: real, lastSample: real, horizon: real)

  function NewPredictor(horizon: real): Predictor {
    Predictor(0.0, 0.0, 0.0, horizon)
  }

  function Blend(previous: real, sample: real): real {
    0.7 * previous + 0.3 * sample
  }

  function Sampled(p: Predictor, cpu: real): Predictor {
    p.(trend := Blend(p.trend, cpu - p.lastSample), ewma := Blend(p.ewma, cpu), lastSample := cpu)
  }

  function Forecast(p: Predictor): real {
    var raw := p.ewma + p.trend * p.horizon;
    if raw < 0.0 then 0.0 else if raw > 100.0 then 100.0 else raw
  }

  class CpuPredictor {
    var ewma: real
    var trend: real
    var lastSample: real
    const horizon: real

    function State(): Predictor
      reads this
    {
      Predictor(ewma, trend, lastSample, horizon)
    }

    constructor (horizon: real)
      ensures State() == NewPredictor(horizon)
    {
      this.horizon := horizon;
      ewma, trend, lastSample := 0.0, 0.0, 0.0;
    }

    method Observe(cpu: real) returns (forecast: real)
      modifies this
      ensures State() == Sampled(old(State()), cpu) && forecast == Forecast(State())
    {
      var delta := cpu - lastSample;
      trend := Blend(trend, delta);
      ewma := Blend(ewma, cpu);
      lastSample := cpu;
      forecast := Forecast(State());
    }
  }

  function Power(base: real, n: nat): real {
    if n == 0 then 1.0 else base * Power(base, n - 1)
  }

  /** The predictor after n samples of one load. */
  function SampledTimes(p: Predictor, cpu: real, n: nat): Predictor {
    if n == 0 then p else Sampled(SampledTimes(p, cpu, n - 1), cpu)
  }

  /** What is left of a gap after n ticks that each take 0.3 of it. */
  function Decayed(gap: real, n: nat): real {
    Power(0.7, n) * gap
  }

  lemma OneMoreTick(gap: real, n: nat)
    ensures Decayed(gap, n + 1) == 0.7 * Decayed(gap, n)
  {
  }

  /** Under a steady load both the error of the average and the trend shrink by 0.7 a tick. */
  lemma {:induction false} SteadyLoadSettles(p: Predictor, cpu: real, n: nat)
    requires p.lastSample == cpu
    ensures var q := SampledTimes(p, cpu, n);
            && q.lastSample == cpu && q.horizon == p.horizon
            && q.ewma - cpu == Decayed(p.ewma - cpu, n)
            && q.trend == Decayed(p.trend, n)
  {
    if n > 0 {
      SteadyLoadSettles(p, cpu, n - 1);
      OneMoreTick(p.ewma - cpu, n - 1);
      OneMoreTick(p.trend, n - 1);
      hide Decayed;
    }
  }

  lemma {:induction false} PowerIsPositive(n: nat)
    ensures Power(0.7, n) > 0.0
  {
    if n > 0 {
      PowerIsPositive(n - 1);
    }
  }

  /** What the trend adds over the horizon. */
  function Extrapolated(p: Predictor): real {
    p.trend * p.horizon
  }

  /** A forecast lies at most as far from a load in percent as the average and the extrapolated trend say. */
  lemma ForecastIsNear(p: Predictor, cpu: real)
    requires Percent(cpu)
    ensures Magnitude(Forecast(p) - cpu) <= Magnitude(p.ewma - cpu) + Magnitude(Extrapolated(p))
  {
  }

  lemma DecayedMagnitude(gap: real, n: nat)
    ensures Magnitude(Decayed(gap, n)) == Decayed(Magnitude(gap), n)
  {
    PowerIsPositive(n);
    ScaledMagnitude(Power(0.7, n), gap);
  }

  lemma ScaledMagnitude(factor: real, x: real)
    requires factor > 0.0
    ensures Magnitude(factor * x) == factor * Magnitude(x)
  {
    if x < 0.0 {
      assert factor * x < 0.0;
    }
  }

  lemma DecayedSum(a: real, b: real, n: nat)
    ensures Decayed(a, n) + Decayed(b, n) == Decayed(a + b, n)
  {
  }

  lemma ExtrapolationShrinks(p: Predictor, q: Predictor, n: nat)
    requires q.trend == Decayed(p.trend, n) && q.horizon == p.horizon
    ensures Extrapolated(q) == Decayed(Extrapolated(p), n)
  {
  }

  /** The forecast settles on a steady load: what is left of its error shrinks by 0.7 a tick. */
  lemma ForecastSettles(p: Predictor, cpu: real, n: nat)
    requires p.lastSample == cpu && Percent(cpu)
    ensures Magnitude(Forecast(SampledTimes(p, cpu, n)) - cpu)
         <= Decayed(Magnitude(p.ewma - cpu) + Magnitude(Extrapolated(p)), n)
  {
    hide Forecast, Magnitude, SampledTimes, Decayed, Extrapolated;
    var q := SampledTimes(p, cpu, n);
    SteadyLoadSettles(p, cpu, n);
    ForecastIsNear(q, cpu);
    ExtrapolationShrinks(p, q, n);
    DecayedMagnitude(p.ewma - cpu, n);
    DecayedMagnitude(Extrapolated(p), n);
    DecayedSum(Magnitude(p.ewma - cpu), Magnitude(Extrapolated(p)), n);
  }

  predicate Percent(x: real) {
    0.0 <= x <= 100.0
  }

  /** Loads in percent keep the average in percent and the trend within a hundred percent a tick. */
  lemma SamplesStayInRange(p: Predictor, cpu: real)
    requires Percent(p.ewma) && Percent(p.lastSample) && Percent(cpu) && -100.0 <= p.trend <= 100.0
    ensures var q := Sampled(p, cpu);
            && Percent(q.ewma) && Percent(q.lastSample) && -100.0 <= q.trend <= 100.0 && Percent(Forecast(q))
            && (p.ewma <= cpu ==> p.ewma <= q.ewma <= cpu) && (cpu <= p.ewma ==> cpu <= q.ewma <= p.ewma)
  {
    hide Forecast;
    ForecastIsPercent(Sampled(p, cpu));
  }

  lemma ForecastIsPercent(p: Predictor)
    ensures Percent(Forecast(p))
  {
  }

  // ---- the tiers ----

  datatype Signals = Signals(cpu: real, droppedFrames: nat, queueDepth: nat, queueCapacity: nat)

  function QueueRatio(s: Signals): real {
    if s.queueCapacity == 0 then 0.0 else s.queueDepth as real / s.queueCapacity as real
  }

  datatype Config = Config(
    yellowCpu: real, redCpu: real, redDropStreak: nat, yellowQueue: real, redQueue: real, upgradeHold: duration)

  function DesiredTier(cfg: Config, predictedCpu: real, s: Signals): Tier {
    if predictedCpu >= cfg.redCpu || s.droppedFrames >= cfg.redDropStreak || QueueRatio(s) >= cfg.redQueue then Red
    else if predictedCpu >= cfg.yellowCpu || QueueRatio(s) >= cfg.yellowQueue then Yellow
    else Green
  }

  /** More of any kind of load never asks for a better tier. */
  lemma MoreLoadNeverHelps(cfg: Config, lowCpu: real, highCpu: real, low: Signals, high: Signals)
    requires lowCpu <= highCpu && low.droppedFrames <= high.droppedFrames && QueueRatio(low) <= QueueRatio(high)
    ensures DesiredTier(cfg, lowCpu, low).Index() <= DesiredTier(cfg, highCpu, high).Index()
  {
    hide QueueRatio;
  }

  datatype Dog = Dog(predictor: Predictor, tier: Tier, streak: duration)

  function NewDog(horizon: real): Dog {
    Dog(NewPredictor(horizon), Green, 0)
  }

  function Wanted(cfg: Config, w: Dog, s: Signals): Tier {
    DesiredTier(cfg, Forecast(Sampled(w.predictor, s.cpu)), s)
  }

  function DogTick(cfg: Config, w: Dog, s: Signals, cadence: duration): Dog {
    var desired := Wanted(cfg, w, s);
    var grown := SaturatingAdd(w.streak, cadence);
    var (tier, streak) :=
      if desired.Index() > w.tier.Index() then (desired, 0)
      else if desired.Index() < w.tier.Index() then
        (if grown >= cfg.upgradeHold then (desired, 0) else (w.tier, grown))
      else (w.tier, if w.tier.Green? then 0 else grown);
    Dog(Sampled(w.predictor, s.cpu), tier, streak)
  }

  datatype TickResult = TickResult(previousTier: Tier, tier: Tier, predictedCpu: real, healthyStreak: duration)

  /** What a tick reports, seen from the watchdog before and after it. */
  function Reported(before: Dog, after: Dog): TickResult {
    TickResult(before.tier, after.tier, Forecast(after.predictor), after.streak)
  }

  class CpuWatchdog {
    const cfg: Config
    const predictor: CpuPredictor
    var tier: Tier
    var healthyStreak: duration

    function State(): Dog
      reads this, predictor
    {
      Dog(predictor.State(), tier, healthyStreak)
    }

    constructor (cfg: Config, horizon: real)
      ensures State() == NewDog(horizon) && this.cfg == cfg && fresh(predictor)
    {
      this.cfg := cfg;
      predictor := new CpuPredictor(horizon);
      tier, healthyStreak := Green, 0;
    }

    method Tick(s: Signals, cadence: duration) returns (result: TickResult)
      modifies this, predictor
      ensures State() == DogTick(cfg, old(State()), s, cadence) && result == Reported(old(State()), State())
    {
      var predictedCpu := predictor.Observe(s.cpu);
      var desired := DesiredTier(cfg, predictedCpu, s);
      var previous := tier;
      if desired.Index() > previous.Index() {
        tier, healthyStreak := desired, 0;
      } else if desired.Index() < previous.Index() {
        healthyStreak := SaturatingAdd(healthyStreak, cadence);
        if healthyStreak >= cfg.upgradeHold {
          tier, healthyStreak := desired, 0;
        }
      } else if previous.Green? {
        healthyStreak := 0;
      } else {
        healthyStreak := SaturatingAdd(healthyStreak, cadence);
      }
      result := TickResult(previous, tier, predictedCpu, healthyStreak);
    }
  }

  // ---- whole runs ----

  /** A watchdog and what its run so far adds up to: all tick time, tick time since the last tier
      change, promotions and demotions. */
  datatype Watched = Watched(dog: Dog, elapsed: nat, sinceChange: nat, promotions: nat, demotions: nat)

  function Step(cfg: Config, x: Watched, s: Signals, cadence: duration): Watched {
    var n := DogTick(cfg, x.dog, s, cadence);
    Watched(n, x.elapsed + cadence,
            if n.tier != x.dog.tier then 0 else x.sinceChange + cadence,
            x.promotions + (if n.tier.Index() < x.dog.tier.Index() then 1 else 0),
            x.demotions + (if n.tier.Index() > x.dog.tier.Index() then 1 else 0))
  }

  function Run(cfg: Config, x: Watched, ticks: seq<(Signals, duration)>): Watched
    decreases |ticks|
  {
    if ticks == [] then x else Run(cfg, Step(cfg, x, ticks[0].0, ticks[0].1), ticks[1..])
  }

  predicate Inv(cfg: Config, x: Watched) {
    && x.dog.streak == (if x.dog.tier.Green? then 0 else Min(x.sinceChange, MAX_DURATION))
    && x.promotions * cfg.upgradeHold + x.dog.streak <= x.elapsed
    && x.demotions <= x.dog.tier.Index() + 2 * x.promotions
  }

  /** A tick changes the tier exactly when more load is seen, or less load is seen and the hold time is
      served; a changed tier is the desired one; and no tick ends better than desired. */
  lemma TickDecides(cfg: Config, w: Dog, s: Signals, cadence: duration)
    ensures var n, desired := DogTick(cfg, w, s, cadence), Wanted(cfg, w, s);
            && (n.tier != w.tier <==>
                  || desired.Index() > w.tier.Index()
                  || (desired.Index() < w.tier.Index() && SaturatingAdd(w.streak, cadence) >= cfg.upgradeHold))
            && (n.tier != w.tier ==> n.tier == desired)
            && n.tier.Index() >= desired.Index()
  {
    hide DesiredTier, Sampled, Forecast;
  }

  lemma StepKeeps(cfg: Config, x: Watched, s: Signals, cadence: duration)
    requires Inv(cfg, x)
    ensures Inv(cfg, Step(cfg, x, s, cadence))
  {
    hide DesiredTier, Sampled, Forecast;
    assert (x.promotions + 1) * cfg.upgradeHold == x.promotions * cfg.upgradeHold + cfg.upgradeHold;
  }

  /** Every promotion is served: when the tier improves, it had lasted, with this tick, at least the hold. */
  lemma PromotionsAreServed(cfg: Config, x: Watched, s: Signals, cadence: duration)
    requires Inv(cfg, x) && Step(cfg, x, s, cadence).promotions > x.promotions
    ensures x.sinceChange + cadence >= cfg.upgradeHold
  {
    hide DesiredTier, Sampled, Forecast;
  }

  /** Over any run from a new watchdog: the streak is exactly the tick time since the last tier change
      (none in Green); promotions are rarer than one per hold time; and demotions are at most twice the
      promotions and two more. */
  lemma {:induction false} RunKeeps(cfg: Config, x: Watched, ticks: seq<(Signals, duration)>)
    requires Inv(cfg, x)
    ensures Inv(cfg, Run(cfg, x, ticks))
    decreases |ticks|
  {
    hide Inv, Step;
    if ticks != [] {
      StepKeeps(cfg, x, ticks[0].0, ticks[0].1);
      RunKeeps(cfg, Step(cfg, x, ticks[0].0, ticks[0].1), ticks[1..]);
    }
  }

  lemma NeverFlaps(cfg: Config, horizon: real, ticks: seq<(Signals, duration)>)
    ensures var x := Run(cfg, Watched(NewDog(horizon), 0, 0, 0, 0), ticks);
            && x.promotions * cfg.upgradeHold <= x.elapsed
            && x.demotions <= 2 * x.promotions + 2
            && x.dog.streak == (if x.dog.tier.Green? then 0 else Min(x.sinceChange, MAX_DURATION))
  {
    RunKeeps(cfg, Watched(NewDog(horizon), 0, 0, 0, 0), ticks);
  }

  // ---- dwell, not health ----

  /** Every tick asks for the tier that holds already. */
  predicate Steady(cfg: Config, w: Dog, ticks: seq<(Signals, duration)>)
    decreases |ticks|
  {
    ticks != [] ==>
      && Wanted(cfg, w, ticks[0].0) == w.tier
      && Steady(cfg, DogTick(cfg, w, ticks[0].0, ticks[0].1), ticks[1..])
  }

  function After(cfg: Config, w: Dog, ticks: seq<(Signals, duration)>): Dog
    decreases |ticks|
  {
    if ticks == [] then w else After(cfg, DogTick(cfg, w, ticks[0].0, ticks[0].1), ticks[1..])
  }

  function TotalTime(ticks: seq<(Signals, duration)>): nat {
    if ticks == [] then 0 else ticks[0].1 + TotalTime(ticks[1..])
  }

  lemma {:induction false} SteadyDwell(cfg: Config, w: Dog, ticks: seq<(Signals, duration)>)
    requires !w.tier.Green? && Steady(cfg, w, ticks)
    ensures After(cfg, w, ticks).tier == w.tier
    ensures After(cfg, w, ticks).streak == Min(w.streak + TotalTime(ticks), MAX_DURATION)
    decreases |ticks|
  {
    hide DesiredTier, Sampled, Forecast;
    if ticks != [] {
      SteadyDwell(cfg, DogTick(cfg, w, ticks[0].0, ticks[0].1), ticks[1..]);
    }
  }

  /** The streak measures dwell time, not health: after a hold time spent entirely under the load that
      keeps it degraded, the first single tick that asks for better is granted at once. */
  lemma OneGoodTickAfterBadDwell(cfg: Config, w: Dog, bad: seq<(Signals, duration)>, good: Signals, cadence: duration)
    requires !w.tier.Green? && Steady(cfg, w, bad) && TotalTime(bad) >= cfg.upgradeHold
    requires Wanted(cfg, After(cfg, w, bad), good).Index() < w.tier.Index()
    ensures DogTick(cfg, After(cfg, w, bad), good, cadence).tier == Wanted(cfg, After(cfg, w, bad), good)
  {
    hide DesiredTier, Sampled, Forecast;
    SteadyDwell(cfg, w, bad);
  }

  // ---- when dwell is health ----

  /**
   * A watched run and, since the last tier change: healthy, the tick time since the last tick of positive
   * length that did not ask for a better tier; allAsked, whether there was no such tick.
   */
  datatype Checked = Checked(x: Watched, healthy: nat, allAsked: bool)

  predicate AsksForBetter(cfg: Config, w: Dog, s: Signals) {
    Wanted(cfg, w, s).Index() < w.tier.Index()
  }

  function Check(cfg: Config, c: Checked, s: Signals, cadence: duration): Checked {
    var n, asked := Step(cfg, c.x, s, cadence), AsksForBetter(cfg, c.x.dog, s);
    if n.dog.tier != c.x.dog.tier then Checked(n, 0, true)
    else if asked then Checked(n, c.healthy + cadence, c.allAsked)
    else if cadence > 0 then Checked(n, 0, false)
    else Checked(n, c.healthy, c.allAsked)
  }

  function CheckRun(cfg: Config, c: Checked, ticks: seq<(Signals, duration)>): Checked
    decreases |ticks|
  {
    if ticks == [] then c else CheckRun(cfg, Check(cfg, c, ticks[0].0, ticks[0].1), ticks[1..])
  }

  predicate CheckInv(c: Checked) {
    && c.healthy <= c.x.sinceChange
    && (c.healthy == c.x.sinceChange <==> c.allAsked)
  }

  lemma {:induction false} CheckKeeps(cfg: Config, c: Checked, ticks: seq<(Signals, duration)>)
    requires CheckInv(c)
    ensures CheckInv(CheckRun(cfg, c, ticks)) && CheckRun(cfg, c, ticks).x == Run(cfg, c.x, ticks)
    decreases |ticks|
  {
    hide DogTick, Wanted;
    if ticks != [] {
      CheckKeeps(cfg, Check(cfg, c, ticks[0].0, ticks[0].1), ticks[1..]);
    }
  }

  function NewCheck(horizon: real): Checked {
    Checked(Watched(NewDog(horizon), 0, 0, 0, 0), 0, true)
  }

  /**
   * Over any run: the streak is the time the system has looked healthy exactly in Green, where both are zero,
   * or when every tick since the tier change asked for better, or at the clock's end.
   */
  lemma StreakIsHealthExactly(cfg: Config, horizon: real, ticks: seq<(Signals, duration)>)
    ensures var c := CheckRun(cfg, NewCheck(horizon), ticks);
            && c.x == Run(cfg, NewCheck(horizon).x, ticks)
            && (c.x.dog.tier.Green? ==> c.x.dog.streak == c.healthy == 0)
            && (!c.x.dog.tier.Green? ==>
                  (c.x.dog.streak == Min(c.healthy, MAX_DURATION) <==> c.allAsked || c.healthy >= MAX_DURATION))
  {
    CheckKeeps(cfg, NewCheck(horizon), ticks);
    RunKeeps(cfg, NewCheck(horizon).x, ticks);
    GreenIsNeverHealthier(cfg, NewCheck(horizon), ticks);
    hide CheckRun, Run;
  }

  lemma {:induction false} GreenIsNeverHealthier(cfg: Config, c: Checked, ticks: seq<(Signals, duration)>)
    requires c.x.dog.tier.Green? ==> c.healthy == 0
    ensures CheckRun(cfg, c, ticks).x.dog.tier.Green? ==> CheckRun(cfg, c, ticks).healthy == 0
    decreases |ticks|
  {
    hide DesiredTier, Sampled, Forecast;
    if ticks != [] {
      GreenIsNeverHealthier(cfg, Check(cfg, c, ticks[0].0, ticks[0].1), ticks[1..]);
    }
  }

  const DEFAULT_CONFIG := Config(60.0, 85.0, 3, 0.5, 0.85, 3_000_000_000)

  /** A run in which dwell and health part: three seconds of dropped frames, and the first clean tick is granted. */
  lemma PromotedAfterBadDwell(horizon: real)
    ensures var bad, good := Signals(0.0, 3, 0, 1), Signals(0.0, 0, 0, 1);
            var c := CheckRun(DEFAULT_CONFIG, NewCheck(horizon), [(bad, 500_000_000), (bad, 3_000_000_000)]);
            && c.x.dog.tier == Red && c.healthy == 0 && c.x.dog.streak == 3_000_000_000
            && Check(DEFAULT_CONFIG, c, good, 500_000_000).x.dog.tier == Green
  {
    var bad, good := Signals(0.0, 3, 0, 1), Signals(0.0, 0, 0, 1);
    var idle := NewPredictor(horizon);
    assert Sampled(idle, 0.0) == idle && Forecast(idle) == 0.0;
    var ticks: seq<(Signals, duration)> := [(bad, 500_000_000), (bad, 3_000_000_000)];
    var rest: seq<(Signals, duration)> := [(bad, 3_000_000_000)];
    var c1 := Check(DEFAULT_CONFIG, NewCheck(horizon), bad, 500_000_000);
    var c2 := Check(DEFAULT_CONFIG, c1, bad, 3_000_000_000);
    assert c1 == Checked(Watched(Dog(idle, Red, 0), 500_000_000, 0, 0, 1), 0, true);
    assert c2 == Checked(Watched(Dog(idle, Red, 3_000_000_000), 3_500_000_000, 3_000_000_000, 0, 1), 0, false);
    hide Check;
    assert ticks[1..] == rest && rest[1..] == [];
    assert CheckRun(DEFAULT_CONFIG, c2, []) == c2;
    assert CheckRun(DEFAULT_CONFIG, c1, rest) == c2;
  }
}

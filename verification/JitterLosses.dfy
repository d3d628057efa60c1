/** What the drop counter says about numbers that were never played: one delivery at a time, and over whole runs. */
module JitterLosses {
  import opened Words
  import opened JitterModel
  import opened JitterInvariants

  // ---- one delivery ----

  /** The number playout still had coming: the expected one, or with nothing expected the oldest one held. */
  function Origin(b: Buffer): int
    requires b.held != []
  {
    if b.expected.Some? then b.expected.value else b.held[0].num
  }

  /** Numbers from there up to the frame at position k: none of them is played once that frame is. */
  function Lost(b: Buffer, k: nat): int
    requires k < |b.held|
  {
    b.held[k].num - Origin(b)
  }

  /** By how much the drop counter rises. */
  function Charged(before: Buffer, after: Buffer): int {
    after.stats.dropped - before.stats.dropped
  }

  lemma {:induction false} Spread(held: seq<Numbered>, k: nat)
    requires Ascending(held) && k < |held|
    ensures held[k].num >= held[0].num + k
  {
    if k > 0 {
      Spread(held, k - 1);
    }
  }

  /** A pop that delivers hands out the oldest frame, and charges the gap before it unless playout only starts now. */
  lemma PopCharges(b: Buffer, hardFloor: bool)
    requires Inv(b) && b.held != [] && Pop(b, hardFloor).1.Popped?
    ensures var (c, r) := Pop(b, hardFloor);
            && r == Popped(b.held[0].frame)
            && (b.started ==> b.expected.Some?)
            && Charged(b, c) == if b.started then b.held[0].num - b.expected.value else 0
  {
  }

  lemma Evicted(b: Buffer, k: nat)
    requires k < |b.held|
    ensures var left := EvictTo(b, |b.held| - k);
            && left.held == b.held[k..] && left.stats.dropped == b.stats.dropped + k
            && left.expected == b.expected && left.started == b.started
  {
  }

  /**
   * Evicting k frames without moving the expected number, as the size trim does: if playout runs, the next
   * delivery charges every lost number and the k frames again; if it only starts then, the k frames alone.
   */
  lemma SizeTrimCharges(b: Buffer, k: nat, hardFloor: bool)
    requires Inv(b) && k < |b.held| && Pop(EvictTo(b, |b.held| - k), hardFloor).1.Popped?
    ensures var (c, r) := Pop(EvictTo(b, |b.held| - k), hardFloor);
            && r == Popped(b.held[k].frame)
            && Charged(b, c) == k + (if b.started then Lost(b, k) else 0)
            && (Charged(b, c) == Lost(b, k) <==> if b.started then k == 0 else Lost(b, k) == k)
  {
    hide Inv, Pop, EvictTo;
    var left := EvictTo(b, |b.held| - k);
    EvictKeeps(b, |b.held| - k);
    Evicted(b, k);
    PopCharges(left, hardFloor);
    var c := Pop(left, hardFloor).0;
    assert Charged(b, c) == k + Charged(left, c);
  }

  lemma OldestExpected(b: Buffer)
    requires Inv(b) && b.held != []
    ensures Origin(b) <= b.held[0].num
  {
  }

  lemma CaughtUp(b: Buffer, k: nat)
    requires Inv(b) && k < |b.held|
    ensures var left := EvictTo(b, |b.held| - k);
            && left.held == b.held[k..] && left.stats.dropped == b.stats.dropped + k
            && var c := CatchUp(left);
               && c.held == left.held && c.expected == Some(b.held[k].num) && c.started == b.started
               && c.stats.dropped == left.stats.dropped
  {
    hide Accounts, Ordered;
  }

  /** Evicting k frames and moving the expected number along, as the timed trim and dropOldestMs do, charges
      exactly those frames: numbers that were already missing before the delivered frame are never charged. */
  lemma TimedTrimCharges(b: Buffer, k: nat, hardFloor: bool)
    requires Inv(b) && k < |b.held| && Pop(CatchUp(EvictTo(b, |b.held| - k)), hardFloor).1.Popped?
    ensures var (c, r) := Pop(CatchUp(EvictTo(b, |b.held| - k)), hardFloor);
            && r == Popped(b.held[k].frame)
            && Charged(b, c) == k <= Lost(b, k)
            && (Charged(b, c) == Lost(b, k) <==> b.held[k].num == Origin(b) + k)
            && (Origin(b) < b.held[0].num ==> Charged(b, c) < Lost(b, k))
  {
    Spread(b.held, k);
    OldestExpected(b);
    EvictKeeps(b, |b.held| - k);
    CaughtUp(b, k);
    hide Inv, Pop, EvictTo, CatchUp;
    CatchUpKeeps(EvictTo(b, |b.held| - k));
    PopCharges(CatchUp(EvictTo(b, |b.held| - k)), hardFloor);
  }

  /** The size trim as it is called: what it evicts is what exceeds the limit. */
  lemma TrimSizeCharges(b: Buffer, hardFloor: bool)
    requires Inv(b) && b.held != [] && Pop(TrimSize(b), hardFloor).1.Popped?
    ensures var limit := MaxFrames(b.config.maxMs, b.durationMs);
            var k := Max(|b.held| - limit, 0);
            var (c, r) := Pop(TrimSize(b), hardFloor);
            && k < |b.held| && r == Popped(b.held[k].frame)
            && Charged(b, c) == k + (if b.started then Lost(b, k) else 0)
            && (Charged(b, c) == Lost(b, k) <==> if b.started then |b.held| <= limit else Lost(b, k) == k)
  {
    var limit := MaxFrames(b.config.maxMs, b.durationMs);
    var k := Max(|b.held| - limit, 0);
    assert limit >= MIN_FRAMES;
    hide MaxFrames, Pop, Inv, EvictTo;
    EvictsAlike(b, limit, |b.held| - k);
    assert TrimSize(b) == EvictTo(b, |b.held| - k);
    assert k < |b.held| && (k == 0 <==> |b.held| <= limit);
    hide TrimSize, Lost, Charged, Max;
    SizeTrimCharges(b, k, hardFloor);
  }

  lemma EvictsAlike(b: Buffer, m: nat, n: nat)
    requires Max(|b.held| - m, 0) == Max(|b.held| - n, 0)
    ensures EvictTo(b, m) == EvictTo(b, n)
  {
  }

  /** The timed trim as it is called, once its 250 ms are over. */
  lemma TrimLatencyCharges(b: Buffer, now: int, hardFloor: bool)
    requires Inv(b) && |b.held| > ThresholdFrames(b.config.dropMs, b.durationMs)
    requires b.overflowSinceMs != 0 && now - b.overflowSinceMs >= TRIM_OBSERVE_WINDOW_MS
    requires Pop(TrimLatency(b, now), hardFloor).1.Popped?
    ensures var k := |b.held| - ThresholdFrames(b.config.dropMs, b.durationMs);
            var (c, r) := Pop(TrimLatency(b, now), hardFloor);
            && r == Popped(b.held[k].frame) && Charged(b, c) == k <= Lost(b, k)
            && (Charged(b, c) == Lost(b, k) <==> b.held[k].num == Origin(b) + k)
  {
    var threshold := ThresholdFrames(b.config.dropMs, b.durationMs);
    var k := |b.held| - threshold;
    assert threshold >= 1;
    hide ThresholdFrames;
    assert TrimLatency(b, now) == CatchUp(EvictTo(b, |b.held| - k)).(overflowSinceMs := 0);
    hide EvictTo, CatchUp, TrimLatency, Inv, Pop;
    TimerIsIgnored(CatchUp(EvictTo(b, |b.held| - k)), hardFloor);
    TimedTrimCharges(b, k, hardFloor);
  }

  lemma TimerIsIgnored(b: Buffer, hardFloor: bool)
    ensures Pop(b.(overflowSinceMs := 0), hardFloor).1 == Pop(b, hardFloor).1
    ensures Pop(b.(overflowSinceMs := 0), hardFloor).0.stats == Pop(b, hardFloor).0.stats
  {
    hide CeilDiv;
  }

  /** dropOldestMs, when it leaves a frame and playout or an earlier trim has set the expected number. */
  lemma DropOldestCharges(b: Buffer, ms: int, hardFloor: bool)
    requires Inv(b) && ms > 0 && DropOldest(b, ms).1 < |b.held| && Pop(DropOldest(b, ms).0, hardFloor).1.Popped?
    ensures var (d, k) := DropOldest(b, ms);
            var (c, r) := Pop(d, hardFloor);
            && k > 0 && r == Popped(b.held[k].frame) && Charged(b, c) == k <= Lost(b, k)
            && (Charged(b, c) == Lost(b, k) <==> b.held[k].num == Origin(b) + k)
  {
    var k := DropOldest(b, ms).1;
    DropIs(b, ms);
    var left := EvictTo(b, |b.held| - k);
    Spread(b.held, k);
    hide EvictTo, CatchUp, DropOldest, Inv, Pop;
    if b.expected.Some? {
      CountIsIgnored(CatchUp(left), hardFloor);
      TimedTrimCharges(b, k, hardFloor);
    } else {
      CountIsIgnored(left, hardFloor);
      SizeTrimCharges(b, k, hardFloor);
      if b.started {
        StartedExpects(b, k, hardFloor);
      }
    }
  }

  lemma DropIs(b: Buffer, ms: int)
    requires ms > 0 && DropOldest(b, ms).1 < |b.held|
    ensures var (d, k) := DropOldest(b, ms);
            var left := EvictTo(b, |b.held| - k);
            k > 0 && left.held != [] && d == Counted(if b.expected.Some? then CatchUp(left) else left)
  {
    hide CeilDiv, Min;
    var k := DropOldest(b, ms).1;
    MinIsOne(FramesIn(ms, b.durationMs), |b.held|);
    assert EvictTo(b, |b.held| - k).held != [];
    hide FramesIn;
  }

  lemma MinIsOne(a: nat, b: nat)
    ensures Min(a, b) == a || Min(a, b) == b
  {
  }

  lemma StartedExpects(b: Buffer, k: nat, hardFloor: bool)
    requires Inv(b) && k < |b.held| && b.started && Pop(EvictTo(b, |b.held| - k), hardFloor).1.Popped?
    ensures b.expected.Some?
  {
  }

  lemma CountIsIgnored(b: Buffer, hardFloor: bool)
    ensures Pop(Counted(b), hardFloor).1 == Pop(b, hardFloor).1
    ensures Pop(Counted(b), hardFloor).0.stats.dropped == Pop(b, hardFloor).0.stats.dropped
  {
    hide CeilDiv;
  }
}

/** When a pop delivers, holds back, underruns or waits, said of the buffer's own fields. */
module JitterPops {
  import opened Words
  import opened JitterModel
  import opened JitterInvariants
  import opened JitterRuns

  /** Playout runs, or enough frames are held to start it: as many milliseconds as the start-up time. */
  predicate Running(b: Buffer) {
    b.started || (|b.held| * b.durationMs >= b.config.startMs && b.held != [])
  }

  /** The hard floor is on, and at most 8 ms are buffered, in 32-bit arithmetic. */
  predicate AtFloor(b: Buffer, hardFloor: bool) {
    hardFloor && ToInt32(|b.held| * b.durationMs) <= 8
  }

  lemma EnoughToStart(held: nat, durationMs: pos, startMs: int)
    ensures held >= CeilDiv(startMs, durationMs) <==> held * durationMs >= startMs
  {
    CeilDivIsCeiling(startMs, durationMs);
    var n := CeilDiv(startMs, durationMs);
    hide CeilDiv;
    if held >= n {
      Monotone(n, held, durationMs);
    } else {
      Monotone(held, n - 1, durationMs);
    }
  }

  lemma Monotone(a: int, b: int, d: pos)
    requires a <= b
    ensures a * d <= b * d
  {
  }

  /**
   * What one pop does, in full. It delivers exactly when playout runs or can start, a frame is held, and the buffer is
   * not at the floor; then it hands out the oldest frame. It counts a floor hold exactly when only the floor keeps it
   * from going on, and an underrun exactly when a running playout finds nothing and is not at the floor. A playout
   * that runs with nothing expected, which takes a start-up time of zero or less, delivers nothing.
   */
  lemma PopExactly(b: Buffer, hardFloor: bool)
    ensures var (c, r) := Pop(b, hardFloor);
            var expects := b.started ==> b.expected.Some?;
            && (r.Popped? <==> Running(b) && expects && b.held != [] && !AtFloor(b, hardFloor))
            && (r.Popped? ==> r.frame == b.held[0].frame && c.held == b.held[1..] && c.started)
            && (!r.Popped? ==> c.held == b.held && c.log.delivered == b.log.delivered)
            && (r.NoSuchElement? ==> !b.started && c == b.(started := true))
            && c.stats.floorHolds == b.stats.floorHolds + (if Running(b) && AtFloor(b, hardFloor) then 1 else 0)
            && c.stats.underruns == b.stats.underruns
                 + (if b.started && expects && b.held == [] && !AtFloor(b, hardFloor) then 1 else 0)
  {
    EnoughToStart(|b.held|, b.durationMs, b.config.startMs);
    hide CeilDiv, ToInt32;
  }

  /** In every buffer that a run reaches from a positive start-up time, with the buffered time read as it is. */
  lemma PopInRun(config: Config, ops: seq<Op>, hardFloor: bool)
    requires InWindow(Fresh(config), ops) && config.startMs >= 1
    requires var b := Run(Fresh(config), ops); |b.held| * b.durationMs < TWO_31
    ensures var b := Run(Fresh(config), ops);
            var (c, r) := Pop(b, hardFloor);
            var floor := hardFloor && |b.held| * b.durationMs <= 8;
            && (r.Popped? <==> Running(b) && b.held != [] && !floor)
            && c.stats.floorHolds == b.stats.floorHolds + (if Running(b) && floor then 1 else 0)
            && c.stats.underruns == b.stats.underruns + (if b.started && b.held == [] && !floor then 1 else 0)
  {
    hide Run, Inv, InWindow, Pop;
    RunFromFresh(config, ops);
    var b := Run(Fresh(config), ops);
    PopExactly(b, hardFloor);
    SmallIsItself(|b.held| * b.durationMs);
    hide ToInt32;
  }

  lemma SmallIsItself(n: int)
    requires 0 <= n < TWO_31
    ensures ToInt32(n) == n
  {
  }

  /** The batch helper delivers exactly when playout runs and the oldest frame held is the expected one, and else
      leaves the buffer alone, underruns and all. */
  lemma PopContiguousExactly(b: Buffer)
    ensures var (c, r) := PopContiguous(b);
            var next := b.started && b.expected.Some? && b.held != [] && b.held[0].num == b.expected.value;
            && (r.Popped? <==> next)
            && (r.Popped? ==> r.frame == b.held[0].frame && c.held == b.held[1..]
                              && c.expected == Some(b.held[0].num + 1) && c.stats.dropped == b.stats.dropped)
            && (!r.Popped? ==> c == b)
  {
  }
}

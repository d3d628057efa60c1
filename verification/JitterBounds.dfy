/** How many frames the jitter buffer may hold, for how long it may stay too full, and that trimming
    never starves start-up. */
module JitterBounds {
  import opened Words
  import opened JitterModel
  import opened JitterRuns

  predicate Accepts(b: Buffer, x: Numbered) {
    !Holds(b.held, x.num) && (b.expected.Some? ==> b.expected.value <= x.num)
  }

  lemma PushTrims(b: Buffer, x: Numbered, packetMs: int, now: int)
    ensures Accepts(b, x) ==> Push(b, x, packetMs, now) == Trim(Inserted(b, x, EffectiveDuration(packetMs)), now)
    ensures !Accepts(b, x) ==> Push(b, x, packetMs, now).held == b.held
    ensures |Insert(b.held, x)| == |b.held| + 1
  {
    hide Trim;
  }

  /** What a trim leaves: at most the size limit; a timer that runs, and has not yet run out, exactly
      when the buffer is above the drop threshold; and never fewer frames than either limit allows. */
  lemma TrimBounds(b: Buffer, now: int)
    ensures var c := Trim(b, now);
            var most, threshold := MaxFrames(b.config.maxMs, b.durationMs),
                                   ThresholdFrames(b.config.dropMs, b.durationMs);
            && c.config == b.config && c.durationMs == b.durationMs
            && |c.held| <= most
            && (now > 0 ==>
                 (c.overflowSinceMs != 0 <==> |c.held| > threshold)
                 && (|c.held| > threshold ==> now - c.overflowSinceMs < TRIM_OBSERVE_WINDOW_MS))
            && Min(|b.held|, Min(most, threshold)) <= |c.held| <= |b.held|
  {
    hide MaxFrames, ThresholdFrames;
  }

  /** After an accepted push: within the size limit, and not above the drop threshold for 250 ms. */
  lemma AcceptedPushBounds(b: Buffer, x: Numbered, packetMs: int, now: int)
    requires Accepts(b, x) && now > 0
    ensures var c := Push(b, x, packetMs, now);
            && |c.held| <= MaxFrames(b.config.maxMs, c.durationMs)
            && (|c.held| > ThresholdFrames(b.config.dropMs, c.durationMs) ==>
                  c.overflowSinceMs != 0 && now - c.overflowSinceMs < TRIM_OBSERVE_WINDOW_MS)
  {
    hide Trim, MaxFrames, ThresholdFrames;
    PushTrims(b, x, packetMs, now);
    TrimBounds(Inserted(b, x, EffectiveDuration(packetMs)), now);
  }

  /** With limits at or above the start-up time, and a start-up of at most 2000 frames, a push never
      trims below the frames start-up needs. */
  lemma TrimmingNeverStarves(b: Buffer, x: Numbered, packetMs: int, now: int)
    requires Accepts(b, x) && b.config.maxMs >= b.config.startMs && b.config.dropMs >= b.config.startMs
    requires StartFrames(b.config.startMs, EffectiveDuration(packetMs)) <= MAX_FRAMES
    ensures var c := Push(b, x, packetMs, now);
            |c.held| >= Min(|b.held| + 1, StartFrames(b.config.startMs, c.durationMs))
  {
    hide Trim;
    var a := Inserted(b, x, EffectiveDuration(packetMs));
    PushTrims(b, x, packetMs, now);
    TrimBounds(a, now);
    CeilDivMonotone(b.config.startMs, b.config.maxMs, a.durationMs);
    CeilDivMonotone(b.config.startMs, b.config.dropMs, a.durationMs);
  }

  /** Reconfiguring orders the limits itself, so its trim never starves start-up either. */
  lemma ReconfigureNeverStarves(b: Buffer, startMs: int, maxMs: int, dropMs: int, now: int)
    requires StartFrames(Max(startMs, 1), b.durationMs) <= MAX_FRAMES
    ensures var c := Reconfigure(b, startMs, maxMs, dropMs, now);
            |c.held| >= Min(|b.held|, StartFrames(c.config.startMs, c.durationMs))
  {
    hide Trim;
    var a := b.(config := Reconfigured(startMs, maxMs, dropMs));
    TrimBounds(a, now);
    CeilDivMonotone(a.config.startMs, a.config.maxMs, a.durationMs);
    CeilDivMonotone(a.config.startMs, a.config.dropMs, a.durationMs);
  }

  // ---- whole runs with one frame duration ----

  predicate FixedDuration(ops: seq<Op>, d: pos) {
    forall i :: 0 <= i < |ops| && ops[i].PushOp? ==> EffectiveDuration(ops[i].packetMs) == d
  }

  predicate Bounded(b: Buffer, d: pos) {
    && (b.held != [] ==> b.durationMs == d)
    && |b.held| <= MaxFrames(b.config.maxMs, d)
  }

  lemma ApplyBounded(b: Buffer, op: Op, d: pos)
    requires Bounded(b, d) && (op.PushOp? ==> EffectiveDuration(op.packetMs) == d)
    ensures Bounded(Apply(b, op), d)
  {
    hide MaxFrames, Insert;
    match op
    case PushOp(x, packetMs, now) =>
      hide Trim;
      PushTrims(b, x, packetMs, now);
      TrimBounds(Inserted(b, x, EffectiveDuration(packetMs)), now);
    case PopOp(_) =>
    case BatchOp =>
    case DropOp(_) => hide CeilDiv;
    case ReconfigureOp(startMs, maxMs, dropMs, now) =>
      hide Trim;
      TrimBounds(b.(config := Reconfigured(startMs, maxMs, dropMs)), now);
      EmptyIsBounded(Reconfigured(startMs, maxMs, dropMs).maxMs, d);
    case ClearOp => EmptyIsBounded(b.config.maxMs, d);
  }

  lemma EmptyIsBounded(maxMs: int, d: pos)
    ensures MIN_FRAMES <= MaxFrames(maxMs, d) <= MAX_FRAMES
  {
  }

  /** With one frame duration the size limit holds in every state, after whatever operations. */
  lemma {:induction false} RunIsBounded(b: Buffer, ops: seq<Op>, d: pos)
    requires Bounded(b, d) && FixedDuration(ops, d)
    ensures Bounded(Run(b, ops), d)
    decreases |ops|
  {
    if ops != [] {
      hide Bounded, Apply;
      ApplyBounded(b, ops[0], d);
      RunIsBounded(Apply(b, ops[0]), ops[1..], d);
    }
  }

  // ---- with durations that change ----

  predicate Within(b: Buffer) {
    |b.held| <= MaxFrames(b.config.maxMs, b.durationMs)
  }

  /** A push may leave the buffer above the limit that its own duration implies: a packet that is late or a
      duplicate is not buffered, yet its duration counts, and no frame is evicted for it. */
  lemma PushLimitExactly(b: Buffer, x: Numbered, packetMs: int, now: int)
    ensures Within(Push(b, x, packetMs, now)) <==>
              Accepts(b, x) || |b.held| <= MaxFrames(b.config.maxMs, EffectiveDuration(packetMs))
  {
    hide Trim, MaxFrames;
    PushTrims(b, x, packetMs, now);
    TrimBounds(Inserted(b, x, EffectiveDuration(packetMs)), now);
  }

  /** The push is rejected, and its duration makes the limit smaller than what is held. */
  predicate Outgrows(b: Buffer, op: Op) {
    && op.PushOp? && !Accepts(b, op.x)
    && |b.held| > MaxFrames(b.config.maxMs, EffectiveDuration(op.packetMs))
  }

  /** From a buffer within its limit, only such a push leads out of it. */
  lemma LimitHoldsExactly(b: Buffer, op: Op)
    requires Within(b)
    ensures Within(Apply(b, op)) <==> !Outgrows(b, op)
  {
    hide MaxFrames, Insert;
    match op
    case PushOp(x, packetMs, now) => PushLimitExactly(b, x, packetMs, now);
    case DropOp(_) => hide CeilDiv;
    case ReconfigureOp(startMs, maxMs, dropMs, now) =>
      hide Trim;
      TrimBounds(b.(config := Reconfigured(startMs, maxMs, dropMs)), now);
    case ClearOp => EmptyIsBounded(b.config.maxMs, 10);
    case _ =>
  }

  predicate AlwaysWithin(b: Buffer, ops: seq<Op>)
    decreases |ops|
  {
    Within(b) && (ops != [] ==> AlwaysWithin(Apply(b, ops[0]), ops[1..]))
  }

  predicate NeverOutgrows(b: Buffer, ops: seq<Op>)
    decreases |ops|
  {
    ops != [] ==> !Outgrows(b, ops[0]) && NeverOutgrows(Apply(b, ops[0]), ops[1..])
  }

  /** Over any run, with any durations, the limit holds in every state exactly when no push outgrows it. */
  lemma {:induction false} RunLimitExactly(b: Buffer, ops: seq<Op>)
    requires Within(b)
    ensures AlwaysWithin(b, ops) <==> NeverOutgrows(b, ops)
    decreases |ops|
  {
    hide Within, Outgrows, Apply;
    if ops != [] {
      LimitHoldsExactly(b, ops[0]);
      if Within(Apply(b, ops[0])) {
        RunLimitExactly(Apply(b, ops[0]), ops[1..]);
      }
    }
  }
}

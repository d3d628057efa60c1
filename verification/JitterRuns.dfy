/** Guarantees of the jitter buffer over whole runs of operations. */
module JitterRuns {
  import opened Words
  import opened JitterModel
  import opened JitterInvariants

  datatype Op =
    | PushOp(x: Numbered, packetMs: int, now: int)
    | PopOp(hardFloor: bool)
    | BatchOp
    | DropOp(ms: int)
    | ReconfigureOp(startMs: int, maxMs: int, dropMs: int, now: int)
    | ClearOp

  function Apply(b: Buffer, op: Op): Buffer {
    match op
    case PushOp(x, packetMs, now) => Push(b, x, packetMs, now)
    case PopOp(hardFloor) => Pop(b, hardFloor).0
    case BatchOp => PopContiguous(b).0
    case DropOp(ms) => DropOldest(b, ms).0
    case ReconfigureOp(startMs, maxMs, dropMs, now) => Reconfigure(b, startMs, maxMs, dropMs, now)
    case ClearOp => Clear(b)
  }

  /** The state after all operations. */
  function Run(b: Buffer, ops: seq<Op>): Buffer
    decreases |ops|
  {
    if ops == [] then b else Run(Apply(b, ops[0]), ops[1..])
  }

  /** Every pushed number lies in the window of the numbers in play at that moment. */
  predicate InWindow(b: Buffer, ops: seq<Op>)
    decreases |ops|
  {
    ops != [] ==>
      && (ops[0].PushOp? ==> Window(b, ops[0].x.num))
      && InWindow(Apply(b, ops[0]), ops[1..])
  }

  /** The published frame counter. */
  predicate Settled(b: Buffer) {
    b.stats.bufferedFrames == |b.held|
  }

  /** Playout runs only with an expected number, and start-up always waits for a frame. */
  predicate PlayoutSafe(b: Buffer) {
    b.config.startMs >= 1 && (b.started ==> b.expected.Some?)
  }

  lemma StartNeedsAFrame(b: Buffer)
    ensures b.config.startMs >= 1 ==> StartFrames(b.config.startMs, b.durationMs) >= 1
  {
    CeilDivIsCeiling(b.config.startMs, b.durationMs);
  }

  lemma ApplyKeeps(b: Buffer, op: Op)
    requires Inv(b) && (op.PushOp? ==> Window(b, op.x.num))
    ensures Inv(Apply(b, op))
  {
    hide Inv, Push, Pop, PopContiguous, DropOldest, Reconfigure, Clear;
    match op
    case PushOp(x, packetMs, now) => PushKeeps(b, x, packetMs, now);
    case PopOp(hardFloor) => PopKeeps(b, hardFloor);
    case BatchOp => PopContiguousKeeps(b);
    case DropOp(ms) => DropKeeps(b, ms);
    case ReconfigureOp(startMs, maxMs, dropMs, now) => ReconfigureKeeps(b, startMs, maxMs, dropMs, now);
    case ClearOp => ClearedHolds(b);
  }

  lemma ClearedHolds(b: Buffer)
    ensures Inv(Clear(b))
  {
    FreshHolds(b.config);
  }

  lemma TrimSettles(b: Buffer, now: int)
    ensures Settled(Trim(b, now))
    ensures PlayoutSafe(b) ==> PlayoutSafe(Trim(b, now))
  {
    hide CeilDiv, Clamp;
  }

  lemma ApplySettles(b: Buffer, op: Op)
    requires Settled(b)
    ensures Settled(Apply(b, op))
    ensures PlayoutSafe(b) ==> PlayoutSafe(Apply(b, op))
  {
    hide Trim, CeilDiv, EvictTo, Insert, Holds;
    match op
    case PushOp(x, packetMs, now) =>
      TrimSettles(Inserted(b, x, EffectiveDuration(packetMs)), now);
    case PopOp(_) => StartNeedsAFrame(b);
    case BatchOp =>
    case DropOp(ms) =>
      EvictLeaves(b, |b.held| - DropOldest(b, ms).1);
    case ReconfigureOp(startMs, maxMs, dropMs, now) =>
      TrimSettles(b.(config := Reconfigured(startMs, maxMs, dropMs)), now);
    case ClearOp =>
  }

  lemma EvictLeaves(b: Buffer, n: int)
    requires n >= 0
    ensures EvictTo(b, n).started == b.started && EvictTo(b, n).expected == b.expected
    ensures EvictTo(b, n).config == b.config
  {
  }

  /** Every state of every windowed run from an empty buffer keeps the invariant. */
  lemma {:induction false} RunKeeps(b: Buffer, ops: seq<Op>)
    requires Inv(b) && Settled(b) && InWindow(b, ops)
    ensures Inv(Run(b, ops)) && Settled(Run(b, ops))
    ensures PlayoutSafe(b) ==> PlayoutSafe(Run(b, ops))
    decreases |ops|
  {
    if ops != [] {
      hide Inv, Settled, PlayoutSafe, Apply;
      ApplyKeeps(b, ops[0]);
      ApplySettles(b, ops[0]);
      RunKeeps(Apply(b, ops[0]), ops[1..]);
    }
  }

  lemma RunFromFresh(config: Config, ops: seq<Op>)
    requires InWindow(Fresh(config), ops)
    ensures Inv(Run(Fresh(config), ops)) && Settled(Run(Fresh(config), ops))
    ensures config.startMs >= 1 ==> PlayoutSafe(Run(Fresh(config), ops))
  {
    FreshHolds(config);
    RunKeeps(Fresh(config), ops);
  }

  /** Within a playout epoch the numbers handed out strictly increase, so none repeats. */
  lemma EpochsDeliverInOrder(config: Config, ops: seq<Op>, i: nat, j: nat)
    requires InWindow(Fresh(config), ops)
    requires i < j < |Run(Fresh(config), ops).log.delivered|
    ensures var d := Run(Fresh(config), ops).log.delivered;
            && d[i].epoch <= d[j].epoch
            && (d[i].epoch == d[j].epoch ==> d[i].item.num + d[j].gap < d[j].item.num)
  {
    RunFromFresh(config, ops);
    hide Run, Accounts, Shape;
    var d := Run(Fresh(config), ops).log.delivered;
    assert Follows(d[i], d[j]);
  }

  /** The sum of the gaps recovered just before the deliveries. */
  function Gaps(delivered: seq<Delivery>): nat {
    if delivered == [] then 0 else Gaps(delivered[..|delivered| - 1]) + delivered[|delivered| - 1].gap
  }

  predicate GapsAreSkipped(b: Buffer) {
    b.log.skipped == Gaps(b.log.delivered)
  }

  lemma TrimDelivers(b: Buffer, now: int)
    ensures Trim(b, now).log.delivered == b.log.delivered && Trim(b, now).log.skipped == b.log.skipped
  {
    hide MaxFrames, ThresholdFrames;
  }

  /** An operation leaves both logs alone, clears them, or delivers the oldest frame. */
  lemma ApplyDelivers(b: Buffer, op: Op)
    requires Inv(b)
    ensures var c := Apply(b, op);
            || (c.log.delivered == b.log.delivered && c.log.skipped == b.log.skipped)
            || (op.ClearOp? && c.log.delivered == [] && c.log.skipped == 0)
            || (b.held != [] && exists gap: nat ::
                  && c.log.delivered == b.log.delivered + [Delivery(b.log.epoch, b.held[0], gap)]
                  && c.log.skipped == b.log.skipped + gap)
  {
    hide Inv, Trim, EvictTo, Insert, Holds, CeilDiv;
    match op
    case PushOp(x, packetMs, now) =>
      TrimDelivers(Inserted(b, x, EffectiveDuration(packetMs)), now);
    case ReconfigureOp(startMs, maxMs, dropMs, now) =>
      TrimDelivers(b.(config := Reconfigured(startMs, maxMs, dropMs)), now);
    case DropOp(ms) =>
      EvictDelivers(b, |b.held| - DropOldest(b, ms).1);
    case _ =>
  }

  lemma EvictDelivers(b: Buffer, n: int)
    requires n >= 0
    ensures EvictTo(b, n).log.delivered == b.log.delivered && EvictTo(b, n).log.skipped == b.log.skipped
  {
  }

  lemma GapsGrow(delivered: seq<Delivery>, d: Delivery)
    ensures Gaps(delivered + [d]) == Gaps(delivered) + d.gap
  {
    assert (delivered + [d])[..|delivered|] == delivered;
  }

  lemma {:induction false} RunSkipsGaps(b: Buffer, ops: seq<Op>)
    requires Inv(b) && GapsAreSkipped(b) && InWindow(b, ops)
    ensures GapsAreSkipped(Run(b, ops))
    decreases |ops|
  {
    if ops != [] {
      ApplyDelivers(b, ops[0]);
      ApplyKeeps(b, ops[0]);
      var c := Apply(b, ops[0]);
      hide Apply, Inv;
      if gap: nat :| b.held != [] && c.log.delivered == b.log.delivered + [Delivery(b.log.epoch, b.held[0], gap)]
                     && c.log.skipped == b.log.skipped + gap {
        GapsGrow(b.log.delivered, Delivery(b.log.epoch, b.held[0], gap));
      }
      RunSkipsGaps(c, ops[1..]);
    }
  }

  /** Conservation since the last clear: pushes are accepted, duplicate or late; accepted frames are
      delivered, evicted or held, each as often as it was accepted; the drop counter adds duplicates,
      evictions and the gaps recovered before deliveries. */
  lemma FramesAreConserved(config: Config, ops: seq<Op>)
    requires InWindow(Fresh(config), ops)
    ensures var b := Run(Fresh(config), ops);
            && b.log.pushes == |b.log.accepted| + b.log.duplicates + b.log.late
            && multiset(b.log.accepted)
               == multiset(Items(b.log.delivered)) + multiset(b.log.evicted) + multiset(b.held)
            && |b.log.accepted| == |b.log.delivered| + |b.log.evicted| + |b.held|
            && b.stats.dropped == b.log.duplicates + |b.log.evicted| + Gaps(b.log.delivered)
            && b.stats.bufferedFrames == |b.held|
  {
    RunFromFresh(config, ops);
    FreshHolds(config);
    RunSkipsGaps(Fresh(config), ops);
    hide Run, Ordered, Shape, Gaps;
    var b := Run(Fresh(config), ops);
    assert |multiset(b.log.accepted)| == |b.log.accepted|;
    assert |multiset(Items(b.log.delivered))| == |b.log.delivered|;
  }

  // ---- single operations in a reachable state ----

  /** The number playout looks for next, if playout runs or starts now. */
  function Sought(b: Buffer): int
    requires b.expected.Some? || b.held != []
  {
    if b.started && b.expected.Some? then b.expected.value
    else if b.held != [] then b.held[0].num
    else b.expected.value
  }

  /** A delivery hands out the oldest frame; the gap counted is the true number of sought numbers that
      were missing; the expected number advances by exactly one more than the gap. */
  lemma DeliveryAdvances(b: Buffer, hardFloor: bool)
    requires Inv(b) && Pop(b, hardFloor).1.Popped?
    ensures b.held != []
    ensures var c, gap := Pop(b, hardFloor).0, b.held[0].num - Sought(b);
            && Pop(b, hardFloor).1.frame == b.held[0].frame
            && 0 <= gap < TWO_31
            && (forall i :: 0 <= i < |b.held| ==> !(Sought(b) <= b.held[i].num < Sought(b) + gap))
            && c.expected == Some(Sought(b) + gap + 1)
            && c.stats.dropped == b.stats.dropped + gap
            && c.held == b.held[1..]
            && c.log.delivered == b.log.delivered + [Delivery(b.log.epoch, b.held[0], gap)]
  {
    StartNeedsAFrame(b);
  }

  /** The only way to fail: asking an empty buffer for its first frame, which takes a start-up time of
      zero or less. */
  lemma FailsExactlyWhen(b: Buffer, hardFloor: bool)
    ensures Pop(b, hardFloor).1 == NoSuchElement <==> !b.started && b.held == [] && b.config.startMs <= 0
  {
    hide PopStarted;
    assert PopStarted(b, hardFloor).1 != NoSuchElement by { StartedNeverFails(b, hardFloor); }
    CeilDivIsCeiling(b.config.startMs, b.durationMs);
    if b.held != [] {
      StartedNeverFails(Start(b), hardFloor);
    }
    CeilSign(b.config.startMs, b.durationMs);
  }

  lemma StartedNeverFails(b: Buffer, hardFloor: bool)
    ensures PopStarted(b, hardFloor).1 != NoSuchElement
  {
  }

  lemma CeilSign(a: int, d: pos)
    ensures CeilDiv(a, d) <= 0 <==> a <= 0
  {
    CeilDivIsCeiling(a, d);
  }

  lemma {:induction false} StartTimeStaysPositive(b: Buffer, ops: seq<Op>)
    requires b.config.startMs >= 1
    ensures Run(b, ops).config.startMs >= 1
    decreases |ops|
  {
    if ops != [] {
      ConfigMoves(b, ops[0]);
      hide Apply;
      StartTimeStaysPositive(Apply(b, ops[0]), ops[1..]);
    }
  }

  lemma ConfigMoves(b: Buffer, op: Op)
    ensures match op
            case ReconfigureOp(startMs, maxMs, dropMs, _) =>
              Apply(b, op).config == Reconfigured(startMs, maxMs, dropMs)
            case _ => Apply(b, op).config == b.config
  {
    hide CeilDiv, Clamp, Insert, Holds;
  }

  /** From a reconfiguration on the failure cannot occur, whatever follows. */
  lemma ReconfiguredNeverFails(b: Buffer, startMs: int, maxMs: int, dropMs: int, now: int, ops: seq<Op>,
                               hardFloor: bool)
    ensures var c := Reconfigure(b, startMs, maxMs, dropMs, now);
            && 1 <= c.config.startMs <= c.config.maxMs && c.config.startMs <= c.config.dropMs
            && Pop(Run(c, ops), hardFloor).1 != NoSuchElement
  {
    ConfigMoves(b, ReconfigureOp(startMs, maxMs, dropMs, now));
    var c := Reconfigure(b, startMs, maxMs, dropMs, now);
    hide Reconfigure, Run, Pop;
    StartTimeStaysPositive(c, ops);
    FailsExactlyWhen(Run(c, ops), hardFloor);
  }

  // ---- what the buffer does not promise ----

  /** The timed trim sets the expected number even though playout has not started. */
  lemma TrimExpectsBeforePlayout(b: Buffer, now: int)
    requires !b.started && b.expected.None? && b.overflowSinceMs != 0
    requires now - b.overflowSinceMs >= TRIM_OBSERVE_WINDOW_MS
    requires ThresholdFrames(b.config.dropMs, b.durationMs) < |b.held| <= MaxFrames(b.config.maxMs, b.durationMs)
    ensures !Trim(b, now).started && Trim(b, now).held != []
    ensures Trim(b, now).expected == Some(Trim(b, now).held[0].num)
  {
    hide MaxFrames;
    assert ThresholdFrames(b.config.dropMs, b.durationMs) >= 1;
    hide ThresholdFrames;
  }

  /** Frames with an underrun between them, each played as the only one of its epoch. */
  function Apart(a: Numbered, z: Numbered, now: int): seq<Op> {
    [PushOp(a, 10, now), PopOp(false), PopOp(false), PushOp(z, 10, now), PopOp(false)]
  }

  lemma PlayedApart(a: Numbered, z: Numbered, now: int)
    ensures var b, ops := Fresh(Config(10, 100, 100)), Apart(a, z, now);
            var c := Run(b, ops);
            && InWindow(b, ops) && c.log.delivered == [Delivery(0, a, 0), Delivery(1, z, 0)]
            && c.stats.dropped == 0 && c.log.evicted == []
  {
    hide Run, InWindow, Push, Pop;
    var b := Fresh(Config(10, 100, 100));
    var b1 := Push(b, a, 10, now);
    OnlyFrame(b, a, now);
    var b2 := Pop(b1, false).0;
    PopsOnly(b1, a);
    var b3 := Pop(b2, false).0;
    PopsNone(b2);
    var b4 := Push(b3, z, 10, now);
    OnlyFrame(b3, z, now);
    PopsOnly(b4, z);
    var b5 := Pop(b4, false).0;
    var o1, o2, o3, o4, o5 := PushOp(a, 10, now), PopOp(false), PopOp(false), PushOp(z, 10, now), PopOp(false);
    RunStep(b, o1, [o2, o3, o4, o5]);
    RunStep(b1, o2, [o3, o4, o5]);
    RunStep(b2, o3, [o4, o5]);
    RunStep(b3, o4, [o5]);
    RunStep(b4, o5, []);
    RunNothing(b5);
    assert [o1] + [o2, o3, o4, o5] == [o1, o2, o3, o4, o5];
    assert [o2] + [o3, o4, o5] == [o2, o3, o4, o5];
    assert [o3] + [o4, o5] == [o3, o4, o5] && [o4] + [o5] == [o4, o5] && [o5] + [] == [o5];
  }

  /** Order holds only inside an epoch: after an underrun an older frame, or the same one, is accepted and played. */
  lemma UnderrunForgetsOrder(late: Numbered, early: Numbered, now: int)
    requires early.num <= late.num < early.num + TWO_31
    ensures var b, ops := Fresh(Config(10, 100, 100)), Apart(late, early, now);
            var d := Run(b, ops).log.delivered;
            InWindow(b, ops) && |d| == 2 && d[0].item == late && d[1].item == early
  {
    hide Run, InWindow;
    PlayedApart(late, early, now);
  }

  lemma RunStep(b: Buffer, op: Op, ops: seq<Op>)
    ensures Run(b, [op] + ops) == Run(Apply(b, op), ops)
    ensures InWindow(b, [op] + ops) <==> (op.PushOp? ==> Window(b, op.x.num)) && InWindow(Apply(b, op), ops)
  {
    assert ([op] + ops)[1..] == ops;
  }

  lemma RunNothing(b: Buffer)
    ensures Run(b, []) == b && InWindow(b, [])
  {
  }

  predicate Idle(b: Buffer) {
    && b.held == [] && !b.started && b.expected.None? && b.durationMs == 10 && b.overflowSinceMs == 0
    && b.config == Config(10, 100, 100)
  }

  lemma OnlyFrame(b: Buffer, x: Numbered, now: int)
    requires Idle(b)
    ensures Push(b, x, 10, now).held == [x] && Push(b, x, 10, now).expected.None?
    ensures !Push(b, x, 10, now).started && Push(b, x, 10, now).overflowSinceMs == 0
    ensures Push(b, x, 10, now).durationMs == 10 && Push(b, x, 10, now).config == b.config
    ensures Push(b, x, 10, now).log == b.log.(pushes := b.log.pushes + 1, accepted := b.log.accepted + [x])
    ensures Push(b, x, 10, now).stats.dropped == b.stats.dropped
    ensures Window(b, x.num)
  {
    assert MaxFrames(100, 10) == 10 && ThresholdFrames(100, 10) == 10;
  }

  lemma PopsOnly(b: Buffer, x: Numbered)
    requires Idle(b.(held := [])) && b.held == [x]
    ensures var c := Pop(b, false).0;
            && c.held == [] && c.started && c.expected.Some? && c.config == b.config && c.durationMs == 10
            && c.overflowSinceMs == 0
            && c.log.delivered == b.log.delivered + [Delivery(b.log.epoch, x, 0)]
            && c.log.epoch == b.log.epoch && c.log.evicted == b.log.evicted && c.stats.dropped == b.stats.dropped
  {
    assert StartFrames(10, 10) == 1;
  }

  lemma PopsNone(b: Buffer)
    requires b.held == [] && b.started && b.expected.Some? && b.durationMs == 10 && b.overflowSinceMs == 0
    requires b.config == Config(10, 100, 100)
    ensures Idle(Pop(b, false).0) && Pop(b, false).0.log == b.log.(epoch := b.log.epoch + 1)
    ensures Pop(b, false).0.stats.dropped == b.stats.dropped
  {
  }
}

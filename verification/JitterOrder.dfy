/** Order of delivery across playout epochs: when it holds, exactly. */
module JitterOrder {
  import opened Words
  import opened JitterModel
  import opened JitterInvariants
  import opened JitterRuns
  import opened JitterBounds

  predicate Increasing(delivered: seq<Delivery>) {
    forall i, j :: 0 <= i < j < |delivered| ==> delivered[i].item.num < delivered[j].item.num
  }

  /** The oldest frame held comes after the last one that was played. */
  predicate Newer(b: Buffer) {
    b.held != [] && (b.log.delivered == [] || b.log.delivered[|b.log.delivered| - 1].item.num < b.held[0].num)
  }

  predicate Delivers(b: Buffer, op: Op) {
    |Apply(b, op).log.delivered| > |b.log.delivered|
  }

  /** The first delivery of an epoch: playout starts, or starts again after an underrun or an emptied buffer. */
  predicate Opens(b: Buffer, op: Op) {
    && Delivers(b, op)
    && (b.log.delivered == [] || b.log.delivered[|b.log.delivered| - 1].epoch < b.log.epoch)
  }

  /** Every start of playout finds the oldest frame held newer than the last one played. */
  predicate RestartsForward(b: Buffer, ops: seq<Op>)
    decreases |ops|
  {
    ops != [] ==> (Opens(b, ops[0]) ==> Newer(b)) && RestartsForward(Apply(b, ops[0]), ops[1..])
  }

  lemma OneMoreDelivery(delivered: seq<Delivery>, d: Delivery)
    requires Increasing(delivered)
    ensures Increasing(delivered + [d]) <==>
              delivered == [] || delivered[|delivered| - 1].item.num < d.item.num
  {
    var all, n := delivered + [d], |delivered|;
    if n > 0 {
      assert all[n - 1].item.num == delivered[n - 1].item.num && all[n] == d;
    }
  }

  /** A pop that delivers keeps the order exactly when the oldest frame held is newer than the last one played. */
  lemma DeliveryKeepsOrderExactly(b: Buffer, op: Op)
    requires Inv(b) && Increasing(b.log.delivered) && Delivers(b, op)
    ensures Increasing(Apply(b, op).log.delivered) <==> Newer(b)
    ensures exists d :: Apply(b, op).log.delivered == b.log.delivered + [d]
  {
    ApplyDelivers(b, op);
    var c := Apply(b, op);
    hide Apply, Inv, Increasing;
    var gap: nat :| b.held != [] && c.log.delivered == b.log.delivered + [Delivery(b.log.epoch, b.held[0], gap)];
    OneMoreDelivery(b.log.delivered, Delivery(b.log.epoch, b.held[0], gap));
  }

  /** Inside an epoch the frame played next is always newer, so order is at stake only at an epoch's first frame. */
  lemma SameEpochIsNewer(b: Buffer)
    requires Inv(b) && b.held != [] && b.log.delivered != [] && b.expected.Some?
    requires b.log.delivered[|b.log.delivered| - 1].epoch == b.log.epoch
    ensures Newer(b)
  {
    assert Behind(b.log.delivered[|b.log.delivered| - 1], b.log.epoch, b.expected);
  }

  predicate Extends(before: seq<Delivery>, after: seq<Delivery>) {
    |before| <= |after| && after[..|before|] == before
  }

  lemma PrefixIncreases(before: seq<Delivery>, after: seq<Delivery>)
    requires Extends(before, after) && Increasing(after)
    ensures Increasing(before)
  {
    assert forall i :: 0 <= i < |before| ==> before[i] == after[i];
  }

  lemma {:induction false} RunExtends(b: Buffer, ops: seq<Op>)
    requires Inv(b) && InWindow(b, ops) && forall i :: 0 <= i < |ops| ==> !ops[i].ClearOp?
    ensures Extends(b.log.delivered, Run(b, ops).log.delivered)
    decreases |ops|
  {
    if ops != [] {
      ApplyDelivers(b, ops[0]);
      ApplyKeeps(b, ops[0]);
      var c := Apply(b, ops[0]);
      hide Apply, Inv;
      RunExtends(c, ops[1..]);
      assert Extends(b.log.delivered, c.log.delivered);
    }
  }

  /** Inside an epoch a delivery always keeps the order. */
  lemma OnlyOpeningsMatter(b: Buffer, op: Op)
    requires Inv(b) && Delivers(b, op) && !Opens(b, op)
    ensures Newer(b)
  {
    ApplyDelivers(b, op);
    assert Behind(b.log.delivered[|b.log.delivered| - 1], b.log.epoch, b.expected);
    hide Apply, Delivers;
    SameEpochIsNewer(b);
  }

  /** Since the last clear, frames are played in strictly increasing order exactly when every start of playout finds
      a newer frame; nothing that happens inside an epoch can break the order. */
  lemma {:induction false} OrderHoldsExactly(b: Buffer, ops: seq<Op>)
    requires Inv(b) && InWindow(b, ops) && forall i :: 0 <= i < |ops| ==> !ops[i].ClearOp?
    requires Increasing(b.log.delivered)
    ensures Increasing(Run(b, ops).log.delivered) <==> RestartsForward(b, ops)
    decreases |ops|
  {
    if ops != [] {
      var c := Apply(b, ops[0]);
      ApplyKeeps(b, ops[0]);
      RunExtends(c, ops[1..]);
      StepKeepsOrderExactly(b, ops[0]);
      hide Apply, Inv, Increasing, Newer, Extends, Opens;
      if Increasing(c.log.delivered) {
        OrderHoldsExactly(c, ops[1..]);
      } else {
        NotRepaired(c.log.delivered, Run(c, ops[1..]).log.delivered);
      }
    }
  }

  lemma StepKeepsOrderExactly(b: Buffer, op: Op)
    requires Inv(b) && Increasing(b.log.delivered) && !op.ClearOp?
    ensures Increasing(Apply(b, op).log.delivered) <==> (Delivers(b, op) ==> Newer(b))
    ensures Increasing(Apply(b, op).log.delivered) <==> (Opens(b, op) ==> Newer(b))
  {
    if Delivers(b, op) {
      DeliveryKeepsOrderExactly(b, op);
      if !Opens(b, op) {
        OnlyOpeningsMatter(b, op);
      }
    } else {
      ApplyDelivers(b, op);
    }
    hide Apply, Inv, Increasing, Newer;
  }

  lemma NotRepaired(before: seq<Delivery>, after: seq<Delivery>)
    requires Extends(before, after) && !Increasing(before)
    ensures !Increasing(after)
  {
    if Increasing(after) {
      PrefixIncreases(before, after);
    }
  }

  lemma FreshOrderHoldsExactly(config: Config, ops: seq<Op>)
    requires InWindow(Fresh(config), ops) && forall i :: 0 <= i < |ops| ==> !ops[i].ClearOp?
    ensures Increasing(Run(Fresh(config), ops).log.delivered) <==> RestartsForward(Fresh(config), ops)
  {
    FreshHolds(config);
    OrderHoldsExactly(Fresh(config), ops);
  }

  // ---- the push that opens the door ----

  function LastPlayed(b: Buffer): int
    requires b.log.delivered != []
  {
    b.log.delivered[|b.log.delivered| - 1].item.num
  }

  /** The push is accepted although its frame does not come after the last one played. */
  predicate Reopens(b: Buffer, op: Op) {
    op.PushOp? && Accepts(b, op.x) && b.log.delivered != [] && op.x.num <= LastPlayed(b)
  }

  /** Everything held or expected comes after the last frame played. */
  predicate Forward(b: Buffer) {
    b.log.delivered != [] ==>
      && (forall i :: 0 <= i < |b.held| ==> LastPlayed(b) < b.held[i].num)
      && (b.expected.Some? ==> LastPlayed(b) < b.expected.value)
  }

  /** It takes the late test to be skipped, for want of an expected number. */
  lemma ReopenedUnexpected(b: Buffer, op: Op)
    requires Forward(b) && Reopens(b, op)
    ensures b.expected.None?
  {
  }

  lemma EvictForward(b: Buffer, n: nat)
    requires Forward(b)
    ensures Forward(EvictTo(b, n))
  {
  }

  lemma LatencyForward(b: Buffer, now: int)
    requires Forward(b)
    ensures Forward(TrimLatency(b, now))
  {
    EvictForward(b, ThresholdFrames(b.config.dropMs, b.durationMs));
    assert ThresholdFrames(b.config.dropMs, b.durationMs) >= 1;
    hide EvictTo, ThresholdFrames;
  }

  lemma TrimForward(b: Buffer, now: int)
    requires Forward(b)
    ensures Forward(Trim(b, now))
  {
    hide MaxFrames, ThresholdFrames;
    EvictForward(b, MaxFrames(b.config.maxMs, b.durationMs));
    LatencyForward(TrimSize(b), now);
    hide TrimLatency, TrimSize;
  }

  lemma DeliverForward(b: Buffer, gap: nat)
    requires Inv(b) && b.held != []
    ensures Forward(Deliver(b, gap))
  {
    hide Accounts, Ordered;
  }

  lemma InsertForward(b: Buffer, x: Numbered)
    requires Forward(b) && (b.log.delivered != [] ==> LastPlayed(b) < x.num)
    ensures Forward(b.(held := Insert(b.held, x)))
  {
  }

  lemma PopStartedForward(b: Buffer, hardFloor: bool)
    requires Inv(b) && Forward(b)
    ensures Forward(PopStarted(b, hardFloor).0)
  {
    if b.held != [] && b.expected.Some? {
      DeliverForward(b, Max(b.held[0].num - b.expected.value, 0));
    }
    hide Inv, Deliver, BufferedMs;
  }

  lemma PopForward(b: Buffer, hardFloor: bool)
    requires Inv(b) && Forward(b)
    ensures Forward(Pop(b, hardFloor).0)
  {
    hide Inv, PopStarted, CanStart;
    PopStartedForward(b, hardFloor);
    if b.held != [] {
      StartKeeps(b);
      PopStartedForward(Start(b), hardFloor);
    }
  }

  lemma BatchForward(b: Buffer)
    requires Inv(b) && Forward(b)
    ensures Forward(PopContiguous(b).0)
  {
    if b.held != [] {
      DeliverForward(b, 0);
    }
    hide Inv, Deliver;
  }

  lemma DropForward(b: Buffer, ms: int)
    requires Forward(b)
    ensures Forward(DropOldest(b, ms).0)
  {
    if ms > 0 && b.held != [] {
      EvictForward(b, |b.held| - DropOldest(b, ms).1);
    }
    hide EvictTo, CeilDiv;
  }

  /** Only such a push can lead to a frame that comes too late. */
  lemma StepForward(b: Buffer, op: Op)
    requires Inv(b) && Forward(b) && !Reopens(b, op)
    ensures Forward(Apply(b, op))
  {
    hide Inv, Trim, Insert, Holds, Pop, PopContiguous, DropOldest;
    match op
    case PushOp(x, packetMs, now) =>
      if Accepts(b, x) {
        InsertForward(b, x);
        TrimForward(Inserted(b, x, EffectiveDuration(packetMs)), now);
      }
    case PopOp(hardFloor) =>
      PopForward(b, hardFloor);
    case BatchOp =>
      BatchForward(b);
    case DropOp(ms) =>
      DropForward(b, ms);
    case ReconfigureOp(startMs, maxMs, dropMs, now) =>
      TrimForward(b.(config := Reconfigured(startMs, maxMs, dropMs)), now);
    case ClearOp =>
  }

  predicate NeverReopens(b: Buffer, ops: seq<Op>)
    decreases |ops|
  {
    ops != [] ==> !Reopens(b, ops[0]) && NeverReopens(Apply(b, ops[0]), ops[1..])
  }

  /** Over any run without such a push everything stays in order; the first one comes when nothing is expected. */
  lemma {:induction false} ForwardRun(b: Buffer, ops: seq<Op>, next: Op)
    requires Inv(b) && Forward(b) && InWindow(b, ops) && NeverReopens(b, ops)
    ensures Forward(Run(b, ops))
    ensures Reopens(Run(b, ops), next) ==> Run(b, ops).expected.None?
    decreases |ops|
  {
    if ops == [] {
      if Reopens(b, next) {
        ReopenedUnexpected(b, next);
      }
    } else {
      StepForward(b, ops[0]);
      ApplyKeeps(b, ops[0]);
      hide Apply, Inv, Forward, Reopens;
      ForwardRun(Apply(b, ops[0]), ops[1..], next);
    }
  }

  /** The numbers of such pushes so far. */
  function Reopened(b: Buffer, op: Op, before: set<int>): set<int> {
    if Reopens(b, op) then before + {op.x.num} else before
  }

  /** Some frame that such a push brought in is played at or below the last frame played. */
  predicate PlaysReopened(b: Buffer, ops: seq<Op>, reopened: set<int>)
    decreases |ops|
  {
    && ops != []
    && (|| (Delivers(b, ops[0]) && b.log.delivered != [] && b.held != []
            && b.held[0].num in reopened && b.held[0].num <= LastPlayed(b))
        || PlaysReopened(Apply(b, ops[0]), ops[1..], Reopened(b, ops[0], reopened)))
  }

  /** A frame held at or below the last one played came in by such a push. */
  predicate Traced(b: Buffer, reopened: set<int>) {
    b.log.delivered != [] ==>
      forall i :: 0 <= i < |b.held| && b.held[i].num <= LastPlayed(b) ==> b.held[i].num in reopened
  }

  lemma TrimTraced(b: Buffer, now: int, reopened: set<int>)
    requires Traced(b, reopened)
    ensures Traced(Trim(b, now), reopened)
  {
    HeldSuffix(b, now);
    hide Trim;
  }

  lemma HeldSuffix(b: Buffer, now: int)
    ensures var c := Trim(b, now);
            c.log.delivered == b.log.delivered && |c.held| <= |b.held| && c.held == b.held[|b.held| - |c.held|..]
  {
    hide MaxFrames, ThresholdFrames;
  }

  lemma InsertTraced(b: Buffer, x: Numbered, reopened: set<int>, after: set<int>)
    requires Traced(b, reopened) && reopened <= after
    requires b.log.delivered != [] && x.num <= LastPlayed(b) ==> x.num in after
    ensures Traced(b.(held := Insert(b.held, x)), after)
  {
    var held := Insert(b.held, x);
    assert forall i :: 0 <= i < |held| ==> held[i] == x || held[i] in b.held;
    hide Insert;
  }

  lemma RejectedHeld(b: Buffer, x: Numbered, packetMs: int, now: int)
    requires !Accepts(b, x)
    ensures var c := Push(b, x, packetMs, now); c.held == b.held && c.log.delivered == b.log.delivered
  {
    hide Trim, Insert;
  }

  lemma PushTraced(b: Buffer, x: Numbered, packetMs: int, now: int, reopened: set<int>)
    requires Traced(b, reopened)
    ensures var op := PushOp(x, packetMs, now); Traced(Push(b, x, packetMs, now), Reopened(b, op, reopened))
  {
    var op := PushOp(x, packetMs, now);
    if Accepts(b, x) {
      PushTrims(b, x, packetMs, now);
      InsertTraced(b, x, reopened, Reopened(b, op, reopened));
      hide Trim, Insert, Holds, Push;
      TrimTraced(Inserted(b, x, EffectiveDuration(packetMs)), now, Reopened(b, op, reopened));
    } else {
      RejectedHeld(b, x, packetMs, now);
      hide Push, Holds;
    }
  }

  lemma StepTraced(b: Buffer, op: Op, reopened: set<int>)
    requires Inv(b) && Traced(b, reopened) && (Delivers(b, op) ==> Newer(b))
    ensures Traced(Apply(b, op), Reopened(b, op, reopened))
  {
    match op
    case PushOp(x, packetMs, now) =>
      hide Push, Traced;
      PushTraced(b, x, packetMs, now, reopened);
    case ReconfigureOp(startMs, maxMs, dropMs, now) =>
      hide Trim;
      TrimTraced(b.(config := Reconfigured(startMs, maxMs, dropMs)), now, reopened);
    case DropOp(ms) =>
      hide CeilDiv;
    case ClearOp =>
    case _ =>
      HeldAfterPlaying(b, op);
      hide Apply;
      if Delivers(b, op) {
        assert forall i :: 0 <= i < |b.held[1..]| ==> b.held[0].num < b.held[1..][i].num;
      }
  }

  lemma HeldAfterPlaying(b: Buffer, op: Op)
    requires Inv(b) && (op.PopOp? || op.BatchOp?)
    ensures var c := Apply(b, op);
            if Delivers(b, op) then b.held != [] && c.held == b.held[1..] && LastPlayed(c) == b.held[0].num
            else c.held == b.held && c.log.delivered == b.log.delivered
  {
    hide Inv, CeilDiv, BufferedMs;
  }

  /**
   * Since the last clear, order is broken exactly when a frame that was accepted at or below the last one played is
   * then played at or below the last one played.
   */
  lemma {:induction false} OrderBreaksExactly(b: Buffer, ops: seq<Op>, reopened: set<int>)
    requires Inv(b) && InWindow(b, ops) && forall i :: 0 <= i < |ops| ==> !ops[i].ClearOp?
    requires Increasing(b.log.delivered) && Traced(b, reopened)
    ensures !Increasing(Run(b, ops).log.delivered) <==> PlaysReopened(b, ops, reopened)
    decreases |ops|
  {
    if ops != [] {
      var op, c := ops[0], Apply(b, ops[0]);
      ApplyKeeps(b, op);
      RunExtends(c, ops[1..]);
      StepKeepsOrderExactly(b, op);
      if Delivers(b, op) {
        BreaksWhen(b, op, reopened);
      }
      hide Apply, Inv, Increasing, Newer, Extends, Opens, Delivers, Reopens, Traced;
      if Delivers(b, op) && !Newer(b) {
        NotRepaired(c.log.delivered, Run(c, ops[1..]).log.delivered);
      } else {
        StepTraced(b, op, reopened);
        OrderBreaksExactly(c, ops[1..], Reopened(b, op, reopened));
      }
    }
  }

  lemma BreaksWhen(b: Buffer, op: Op, reopened: set<int>)
    requires Inv(b) && Traced(b, reopened) && Delivers(b, op)
    ensures !Newer(b) <==>
              b.log.delivered != [] && b.held != [] && b.held[0].num in reopened && b.held[0].num <= LastPlayed(b)
  {
    ApplyDelivers(b, op);
  }

  lemma FreshOrderBreaksExactly(config: Config, ops: seq<Op>)
    requires InWindow(Fresh(config), ops) && forall i :: 0 <= i < |ops| ==> !ops[i].ClearOp?
    ensures !Increasing(Run(Fresh(config), ops).log.delivered) <==> PlaysReopened(Fresh(config), ops, {})
  {
    FreshHolds(config);
    OrderBreaksExactly(Fresh(config), ops, {});
  }
}

/** Concrete runs of the jitter buffer in which a counter or a limit is not what its name says. */
module JitterScenarios {
  import opened Words
  import opened JitterModel
  import opened JitterInvariants
  import opened JitterRuns
  import opened JitterBounds
  import opened JitterLedger

  /** A 10 ms frame under its wrapped number. */
  function Item(num: int): Numbered {
    Numbered(num, PcmFrame(ToInt32(num), [], 48000, 2, 10))
  }

  function Block(first: int, count: nat): (s: seq<Numbered>)
    ensures |s| == count && forall i :: 0 <= i < count ==> s[i] == Item(first + i)
  {
    seq(count, i => Item(first + i))
  }

  function Pushes(first: int, count: nat): seq<Op>
    decreases count
  {
    if count == 0 then [] else [PushOp(Item(first), 10, 1)] + Pushes(first + 1, count - 1)
  }

  /** Number 0 was played, number 1 is awaited, and it and the numbers after it are buffered, count in all. */
  predicate Filled(b: Buffer, config: Config, count: nat) {
    && b.config == config && b.held == Block(1, count) && b.started && b.expected == Some(1)
    && b.durationMs == 10 && b.overflowSinceMs == 0 && b.stats.dropped == 0
    && b.log.delivered == [Delivery(0, Item(0), 0)] && b.log.evicted == [] && b.log.epoch == 0
  }

  lemma BlockRank(first: int, count: nat)
    ensures Rank(Block(first, count), first + count) == count
  {
    var block := Block(first, count);
    var r := Rank(block, first + count);
    RankSplits(block, first + count);
    assert forall i :: 0 <= i < count ==> block[i].num < first + count;
  }

  lemma FillOne(b: Buffer, config: Config, count: nat)
    requires Filled(b, config, count) && count < 1000
    requires count < MaxFrames(config.maxMs, 10) && count < ThresholdFrames(config.dropMs, 10)
    ensures Window(b, 1 + count)
    ensures Filled(Push(b, Item(1 + count), 10, 1), config, count + 1)
  {
    BlockRank(1, count);
    var x := Item(1 + count);
    assert Insert(b.held, x) == Block(1, count + 1);
    hide Rank, MaxFrames, ThresholdFrames;
    var c := Inserted(b, x, 10);
    assert c.held[0..] == c.held;
  }

  lemma {:induction false} FillRun(b: Buffer, config: Config, have: nat, count: nat)
    requires Filled(b, config, have) && have + count <= 1000
    requires have + count <= MaxFrames(config.maxMs, 10) && have + count <= ThresholdFrames(config.dropMs, 10)
    ensures InWindow(b, Pushes(1 + have, count))
    ensures Filled(Run(b, Pushes(1 + have, count)), config, have + count)
    decreases count
  {
    hide Filled, MaxFrames, ThresholdFrames, Push, Window;
    if count > 0 {
      var op, rest := PushOp(Item(1 + have), 10, 1), Pushes(1 + have + 1, count - 1);
      FillOne(b, config, have);
      FillRun(Apply(b, op), config, have + 1, count - 1);
      RunStep(b, op, rest);
    } else {
      RunNothing(b);
    }
  }

  predicate Appends(b: Buffer, ops: seq<Op>, more: seq<Op>) {
    && Run(b, ops + more) == Run(Run(b, ops), more)
    && (InWindow(b, ops + more) <==> InWindow(b, ops) && InWindow(Run(b, ops), more))
  }

  lemma OneMoreOp(b: Buffer, op: Op, ops: seq<Op>, more: seq<Op>)
    requires Appends(Apply(b, op), ops, more)
    ensures Appends(b, [op] + ops, more)
  {
    hide Apply, Window, Run, InWindow;
    RunStep(b, op, ops);
    RunStep(b, op, ops + more);
    assert ([op] + ops) + more == [op] + (ops + more);
  }

  lemma {:induction false} RunAppend(b: Buffer, ops: seq<Op>, more: seq<Op>)
    ensures Appends(b, ops, more)
    decreases |ops|
  {
    if ops == [] {
      assert ops + more == more;
      RunNothing(b);
      hide Run, InWindow;
    } else {
      hide Apply, Appends;
      RunAppend(Apply(b, ops[0]), ops[1..], more);
      OneMoreOp(b, ops[0], ops[1..], more);
      assert [ops[0]] + ops[1..] == ops;
    }
  }

  lemma RunTwo(b: Buffer, first: Op, second: Op)
    ensures Run(b, [first, second]) == Apply(Apply(b, first), second)
    ensures InWindow(b, [first, second]) <==>
              && (first.PushOp? ==> Window(b, first.x.num))
              && (second.PushOp? ==> Window(Apply(b, first), second.x.num))
  {
    hide Run, InWindow, Apply, Window;
    RunNothing(Apply(Apply(b, first), second));
    RunStep(Apply(b, first), second, []);
    RunStep(b, first, [second]);
    assert [second] + [] == [second] && [first] + [second] == [first, second];
  }

  const START := [PushOp(Item(0), 10, 1), PopOp(false)]

  lemma FirstPush(config: Config)
    requires config.dropMs == 10000
    ensures var b, c := Fresh(config), Push(Fresh(config), Item(0), 10, 1);
            && Window(b, 0) && c.held == [Item(0)]
            && c == b.(held := c.held, log := c.log, stats := c.stats)
            && c.stats == b.stats.(bufferedFrames := 1)
            && c.log == b.log.(pushes := 1, accepted := [Item(0)])
  {
    var b := Fresh(config);
    assert ThresholdFrames(10000, 10) == 1000;
    LimitIsPositive(config.maxMs, 10);
    hide MaxFrames, ThresholdFrames;
    assert Insert([], Item(0)) == [Item(0)];
    var c := Inserted(b, Item(0), 10);
    assert c.held[0..] == c.held && c.log.evicted + c.held[..0] == [];
  }

  lemma FirstPop(b: Buffer, config: Config)
    requires config.startMs == 10 && b.config == config && b.held == [Item(0)] && !b.started && b.expected.None?
    requires b.durationMs == 10 && b.overflowSinceMs == 0 && b.stats.dropped == 0
    requires b.log.delivered == [] && b.log.evicted == [] && b.log.epoch == 0
    ensures Filled(Pop(b, false).0, config, 0)
  {
    assert StartFrames(10, 10) == 1;
  }

  /** Number 0 is played, and number 1 is awaited. */
  lemma Started(config: Config)
    requires config.startMs == 10 && config.dropMs == 10000
    ensures InWindow(Fresh(config), START) && Filled(Run(Fresh(config), START), config, 0)
  {
    FirstPush(config);
    FirstPop(Push(Fresh(config), Item(0), 10, 1), config);
    hide Push, Pop, Filled, Run, InWindow, Window;
    RunTwo(Fresh(config), PushOp(Item(0), 10, 1), PopOp(false));
  }

  lemma LimitIsPositive(maxMs: int, d: pos)
    ensures MaxFrames(maxMs, d) >= MIN_FRAMES
  {
  }

  /** START and then count more numbers. */
  lemma FilledUp(config: Config, count: nat)
    requires config.startMs == 10 && config.dropMs == 10000 && count <= 1000
    requires count <= MaxFrames(config.maxMs, 10)
    ensures InWindow(Fresh(config), START + Pushes(1, count))
    ensures Filled(Run(Fresh(config), START + Pushes(1, count)), config, count)
  {
    assert ThresholdFrames(10000, 10) == 1000;
    hide MaxFrames, ThresholdFrames, Filled;
    Started(config);
    FillRun(Run(Fresh(config), START), config, 0, count);
    RunAppend(Fresh(config), START, Pushes(1, count));
  }

  lemma NinthIsTooMany(b: Buffer)
    requires Filled(b, Config(10, 10, 10000), 8)
    ensures Window(b, 9)
    ensures var c := Pop(Push(b, Item(9), 10, 1), false).0;
            && c.log.delivered == [Delivery(0, Item(0), 0), Delivery(0, Item(2), 1)]
            && c.log.evicted == [Item(1)] && c.stats.dropped == 2
  {
    BlockRank(1, 8);
    assert MaxFrames(10, 10) == 8 && ThresholdFrames(10000, 10) == 1000;
    hide Rank, MaxFrames, ThresholdFrames;
    var c := Inserted(b, Item(9), 10);
    assert c.held == Block(1, 9);
    var d := Push(b, Item(9), 10, 1);
    assert d.held == Block(2, 8) && d.log.evicted == [Item(1)] && d.stats.dropped == 1;
  }

  /** A run in which one lost number is counted as two: number 1 is evicted, and then skipped. */
  lemma OneLossCountsTwice()
    ensures var b := Fresh(Config(10, 10, 10000));
            var ops := START + Pushes(1, 8) + [PushOp(Item(9), 10, 1), PopOp(false)];
            var c := Run(b, ops);
            && InWindow(b, ops) && c.stats.dropped == 2
            && c.log.delivered == [Delivery(0, Item(0), 0), Delivery(0, Item(2), 1)] && c.log.evicted == [Item(1)]
  {
    var config := Config(10, 10, 10000);
    var b, filling := Fresh(config), START + Pushes(1, 8);
    assert MaxFrames(10, 10) == 8;
    hide MaxFrames, Filled;
    FilledUp(config, 8);
    var filled := Run(b, filling);
    NinthIsTooMany(filled);
    hide Run, InWindow, Push, Pop, Window;
    RunTwo(filled, PushOp(Item(9), 10, 1), PopOp(false));
    RunAppend(b, filling, [PushOp(Item(9), 10, 1), PopOp(false)]);
  }

  lemma RejectedOutgrows(b: Buffer, num: int)
    requires Filled(b, Config(10, 100, 10000), 9) && num in {0, 1}
    ensures Window(b, num) && Within(b) && Outgrows(b, PushOp(Item(num), 100, 1))
  {
    assert MaxFrames(100, 10) == 10 && MaxFrames(100, 100) == 8;
    RankSplits(b.held, num);
    assert b.held[0].num == 1;
    hide MaxFrames, Rank;
  }

  /** Runs in which a late packet, or a second copy of a buffered one, leaves nine frames where eight are allowed. */
  lemma RejectedPacketMovesTheLimit(num: int)
    requires num in {0, 1}
    ensures var b := Fresh(Config(10, 100, 10000));
            var ops := START + Pushes(1, 9) + [PushOp(Item(num), 100, 1)];
            InWindow(b, ops) && !Within(Run(b, ops))
  {
    var config := Config(10, 100, 10000);
    var b, filling, op := Fresh(config), START + Pushes(1, 9), PushOp(Item(num), 100, 1);
    assert MaxFrames(100, 10) == 10;
    hide MaxFrames, Filled;
    FilledUp(config, 9);
    var filled := Run(b, filling);
    RejectedOutgrows(filled, num);
    LimitHoldsExactly(filled, op);
    hide Run, InWindow, Apply, Window, Within, Outgrows;
    RunNothing(Apply(filled, op));
    RunStep(filled, op, []);
    RunAppend(b, filling, [op]);
    assert [op] + [] == [op];
  }

  /** Runs in which numbers are lost and none is charged: whatever lies between the last frame before an underrun
      and the first one after it. */
  lemma RestartIsNeverCharged(a: Numbered, z: Numbered, now: int)
    requires a.num < z.num
    ensures var b, ops := Fresh(Config(10, 100, 100)), Apart(a, z, now);
            var c := Run(b, ops);
            && InWindow(b, ops) && c.log.delivered == [Delivery(0, a, 0), Delivery(1, z, 0)] && c.log.evicted == []
            && Reported(c) == 0 && |Unplayed(c.log.delivered, a.num, z.num + 1)| == z.num - a.num - 1
  {
    hide Run, InWindow;
    var b, ops := Fresh(Config(10, 100, 100)), Apart(a, z, now);
    var c := Run(b, ops);
    PlayedApart(a, z, now);
    RunFromFresh(b.config, ops);
    UnplayedCounts(c.log.delivered, z.num + 1);
    assert Accounts(c);
  }
}

/** Over whole runs: which numbers were never played, where they went, and when the drop counter tells. */
module JitterLedger {
  import opened Words
  import opened JitterModel
  import opened JitterInvariants
  import opened JitterRuns
  import opened JitterOrder

  /**
   * Where playout stands, or stood when it last stopped, and by how much it moved without playing or counting a
   * gap since the first frame was played: on by the timed trim and by dropOldestMs, and from where it stopped to
   * where it started again.
   */
  datatype Ledger = Ledger(stands: int, trimmed: int, dropped: int, restarted: int)

  const BLANK := Ledger(0, 0, 0, 0)

  predicate Playing(b: Buffer) {
    b.started && b.expected.Some?
  }

  function Stands(b: Buffer, before: int): int {
    if Playing(b) then b.expected.value else before
  }

  predicate Starts(b: Buffer, op: Op) {
    op.PopOp? && !b.started && CanStart(b) && b.held != []
  }

  function Entry(l: Ledger, b: Buffer, op: Op): Ledger {
    var c := Apply(b, op);
    if c.log.delivered == [] then BLANK
    else if b.log.delivered == [] then BLANK.(stands := Stands(c, 0))
    else
      var m := l.(stands := Stands(c, l.stands));
      if op.PopOp? || op.BatchOp? then
        if Starts(b, op) then m.(restarted := l.restarted + b.held[0].num - l.stands) else m
      else
        var moved := m.stands - l.stands;
        if !Playing(b) then m.(restarted := l.restarted + moved)
        else if op.DropOp? then m.(dropped := l.dropped + moved)
        else m.(trimmed := l.trimmed + moved)
  }

  function Booked(l: Ledger, b: Buffer, ops: seq<Op>): Ledger
    decreases |ops|
  {
    if ops == [] then l else Booked(Entry(l, b, ops[0]), Apply(b, ops[0]), ops[1..])
  }

  function Moves(l: Ledger): int {
    l.trimmed + l.dropped + l.restarted
  }

  /** A number is expected before playout only beside a frame. */
  predicate Expects(b: Buffer) {
    b.expected.Some? && !b.started ==> b.held != []
  }

  /** The ledger adds up: from the first frame played to where playout stands, every number was played, counted
      in a gap, or passed over by one of the three moves. */
  predicate AddsUp(l: Ledger, b: Buffer) {
    && Expects(b)
    && (b.log.delivered != [] ==>
          && (Playing(b) ==> l.stands == b.expected.value)
          && l.stands - b.log.delivered[0].item.num
               == |b.log.delivered| + Gaps(b.log.delivered) - b.log.delivered[0].gap + Moves(l))
  }

  lemma TrimPlays(b: Buffer, now: int)
    requires b.held != [] || Expects(b)
    ensures Trim(b, now).log.delivered == b.log.delivered && Expects(Trim(b, now))
  {
    hide CeilDiv;
  }

  /** An operation that plays nothing: what it moves is booked as such. */
  lemma QuietAddsUp(l: Ledger, b: Buffer, op: Op)
    requires AddsUp(l, b) && !op.PopOp? && !op.BatchOp?
    requires Apply(b, op).log.delivered == b.log.delivered || Apply(b, op).log.delivered == []
    requires Expects(Apply(b, op))
    ensures AddsUp(Entry(l, b, op), Apply(b, op))
  {
    hide Apply, Gaps;
  }

  lemma PushIsQuiet(b: Buffer, x: Numbered, packetMs: int, now: int)
    requires Expects(b)
    ensures var c := Push(b, x, packetMs, now); c.log.delivered == b.log.delivered && Expects(c)
  {
    assert Insert(b.held, x) != [];
    hide Trim, Insert, Holds;
    TrimPlays(Inserted(b, x, EffectiveDuration(packetMs)), now);
  }

  lemma DropIsQuiet(b: Buffer, ms: int)
    requires Expects(b)
    ensures var c := DropOldest(b, ms).0; c.log.delivered == b.log.delivered && Expects(c)
  {
    hide CeilDiv;
  }

  /** A delivery: playout moves from the expected number past the frame, by the gap and one. */
  lemma DeliveryAddsUp(l: Ledger, b: Buffer, gap: nat, m: Ledger)
    requires Playing(b) && b.held != [] && gap == b.held[0].num - b.expected.value
    requires b.log.delivered != [] ==> AddsUp(l, b)
    requires m == if b.log.delivered == [] then BLANK.(stands := b.held[0].num + 1)
                  else l.(stands := b.held[0].num + 1)
    ensures AddsUp(m, Deliver(b, gap))
  {
    GapsGrow(b.log.delivered, Delivery(b.log.epoch, b.held[0], gap));
    assert b.log.delivered == [] ==> Gaps(b.log.delivered) == 0;
    hide Gaps;
  }

  /** Starting again moves playout from where it stopped to the oldest frame held. */
  lemma StartAddsUp(l: Ledger, b: Buffer)
    requires AddsUp(l, b) && !b.started && b.held != []
    ensures b.log.delivered != [] ==>
              AddsUp(l.(stands := b.held[0].num, restarted := l.restarted + b.held[0].num - l.stands), Start(b))
  {
    hide Gaps;
  }

  /** The entry of an operation that plays, from where playout stood when it began. */
  function Onward(l: Ledger, b: Buffer, c: Buffer): Ledger {
    if c.log.delivered == [] then BLANK
    else if b.log.delivered == [] then BLANK.(stands := Stands(c, 0))
    else l.(stands := Stands(c, l.stands))
  }

  lemma PopStartedAddsUp(l: Ledger, b: Buffer, hardFloor: bool)
    requires Inv(b) && b.started && (b.log.delivered != [] ==> AddsUp(l, b))
    ensures AddsUp(Onward(l, b, PopStarted(b, hardFloor).0), PopStarted(b, hardFloor).0)
  {
    hide Gaps, BufferedMs;
    if Playing(b) && b.held != [] {
      GapIsCount(b);
      var gap := b.held[0].num - b.expected.value;
      DeliveryAddsUp(l, b, gap, if b.log.delivered == [] then BLANK.(stands := b.held[0].num + 1)
                                else l.(stands := b.held[0].num + 1));
    }
  }

  function Restarted(l: Ledger, b: Buffer): Ledger
    requires b.held != []
  {
    if b.log.delivered == [] then l
    else l.(stands := b.held[0].num, restarted := l.restarted + b.held[0].num - l.stands)
  }

  lemma PopEntryIs(l: Ledger, b: Buffer, hardFloor: bool)
    ensures var from := if Starts(b, PopOp(hardFloor)) then Restarted(l, b) else l;
            var c := Pop(b, hardFloor).0;
            Playing(c) || !Starts(b, PopOp(hardFloor)) ==> Entry(l, b, PopOp(hardFloor)) == Onward(from, b, c)
  {
    hide Pop;
  }

  lemma StartPlays(b: Buffer, hardFloor: bool)
    requires b.held != []
    ensures Playing(PopStarted(Start(b), hardFloor).0)
  {
  }

  lemma PopAddsUp(l: Ledger, b: Buffer, hardFloor: bool)
    requires Inv(b) && AddsUp(l, b)
    ensures AddsUp(Entry(l, b, PopOp(hardFloor)), Pop(b, hardFloor).0)
  {
    PopEntryIs(l, b, hardFloor);
    if b.started {
      hide Inv, PopStarted, Entry, AddsUp, Onward;
      PopStartedAddsUp(l, b, hardFloor);
    } else if Starts(b, PopOp(hardFloor)) {
      StartKeeps(b);
      StartAddsUp(l, b);
      StartPlays(b, hardFloor);
      hide Inv, PopStarted, Entry, AddsUp, Onward, CanStart;
      PopStartedAddsUp(Restarted(l, b), Start(b), hardFloor);
    } else {
      hide Inv, PopStarted, Entry, Gaps, CanStart;
    }
  }

  lemma BatchAddsUp(l: Ledger, b: Buffer)
    requires AddsUp(l, b)
    ensures AddsUp(Entry(l, b, BatchOp), PopContiguous(b).0)
  {
    hide Gaps;
    if Playing(b) && b.held != [] && b.held[0].num == b.expected.value {
      DeliveryAddsUp(l, b, 0, if b.log.delivered == [] then BLANK.(stands := b.held[0].num + 1)
                              else l.(stands := b.held[0].num + 1));
    }
  }

  lemma EntryAddsUp(l: Ledger, b: Buffer, op: Op)
    requires Inv(b) && AddsUp(l, b)
    ensures AddsUp(Entry(l, b, op), Apply(b, op))
  {
    match op
    case PopOp(hardFloor) =>
      PopAddsUp(l, b, hardFloor);
    case BatchOp =>
      BatchAddsUp(l, b);
    case PushOp(x, packetMs, now) =>
      PushIsQuiet(b, x, packetMs, now);
      hide Push, AddsUp, Expects;
      QuietAddsUp(l, b, op);
    case DropOp(ms) =>
      DropIsQuiet(b, ms);
      hide DropOldest, AddsUp, Expects;
      QuietAddsUp(l, b, op);
    case ReconfigureOp(startMs, maxMs, dropMs, now) =>
      TrimPlays(b.(config := Reconfigured(startMs, maxMs, dropMs)), now);
      QuietAddsUp(l, b, op);
    case ClearOp =>
      QuietAddsUp(l, b, op);
  }

  lemma {:induction false} RunAddsUp(l: Ledger, b: Buffer, ops: seq<Op>)
    requires Inv(b) && AddsUp(l, b) && InWindow(b, ops)
    ensures AddsUp(Booked(l, b, ops), Run(b, ops))
    decreases |ops|
  {
    if ops != [] {
      hide Inv, AddsUp, Apply, Entry;
      ApplyKeeps(b, ops[0]);
      EntryAddsUp(l, b, ops[0]);
      RunAddsUp(Entry(l, b, ops[0]), Apply(b, ops[0]), ops[1..]);
    }
  }

  // ---- the numbers that were never played ----

  predicate Played(delivered: seq<Delivery>, n: int) {
    exists i :: 0 <= i < |delivered| && delivered[i].item.num == n
  }

  function Unplayed(delivered: seq<Delivery>, first: int, end: int): set<int> {
    set n | first <= n < end && !Played(delivered, n)
  }

  lemma {:induction false} NothingPlayed(first: int, end: int)
    requires first <= end
    ensures |Unplayed([], first, end)| == end - first
    decreases end - first
  {
    if first < end {
      NothingPlayed(first, end - 1);
      assert !Played([], end - 1);
      assert Unplayed([], first, end) == Unplayed([], first, end - 1) + {end - 1};
    } else {
      assert Unplayed([], first, end) == {};
    }
  }

  lemma PlayedSplits(delivered: seq<Delivery>, n: int)
    requires delivered != []
    ensures var last := |delivered| - 1;
            Played(delivered, n) <==> Played(delivered[..last], n) || delivered[last].item.num == n
  {
    var last := |delivered| - 1;
    if i :| 0 <= i < |delivered| && delivered[i].item.num == n {
      assert i < last ==> delivered[..last][i].item.num == n;
    }
    if i :| 0 <= i < last && delivered[..last][i].item.num == n {
      assert delivered[i].item.num == n;
    }
  }

  lemma PlayedBelow(delivered: seq<Delivery>, n: int)
    requires delivered != [] && Increasing(delivered) && Played(delivered, n)
    ensures delivered[0].item.num <= n <= delivered[|delivered| - 1].item.num
  {
  }

  /** Played in increasing order, all other numbers of the stretch are unplayed. */
  lemma {:induction false} UnplayedCounts(delivered: seq<Delivery>, end: int)
    requires delivered != [] && Increasing(delivered) && delivered[|delivered| - 1].item.num < end
    ensures |Unplayed(delivered, delivered[0].item.num, end)| == end - delivered[0].item.num - |delivered|
    decreases |delivered|
  {
    var n, first := |delivered| - 1, delivered[0].item.num;
    var last := delivered[n].item.num;
    forall k ensures Played(delivered, k) <==> Played(delivered[..n], k) || last == k {
      PlayedSplits(delivered, k);
    }
    NothingPlayed(last + 1, end);
    var rest := Unplayed([], last + 1, end);
    assert forall k :: !Played([], k);
    forall k | last < k ensures !Played(delivered, k) {
      if Played(delivered, k) {
        PlayedBelow(delivered, k);
      }
    }
    hide Played, Increasing;
    if n == 0 {
      assert delivered[..n] == [];
      assert Unplayed(delivered, first, end) == rest;
    } else {
      var before := Unplayed(delivered[..n], first, last);
      PrefixIncreasing(delivered);
      UnplayedCounts(delivered[..n], last);
      assert Unplayed(delivered, first, end) == before + rest;
    }
  }

  lemma PrefixIncreasing(delivered: seq<Delivery>)
    requires |delivered| > 1 && Increasing(delivered)
    ensures var n := |delivered| - 1;
            Increasing(delivered[..n]) && delivered[0].item.num <= delivered[n - 1].item.num < delivered[n].item.num
  {
  }

  /** What the drop counter says about frames that were not played, beside the duplicates it also counts. */
  function Reported(b: Buffer): int {
    b.stats.dropped - b.log.duplicates
  }

  /** The numbers never played, from the first frame played up to where playout stands. */
  function Missing(l: Ledger, b: Buffer): set<int>
    requires b.log.delivered != []
  {
    Unplayed(b.log.delivered, b.log.delivered[0].item.num, l.stands)
  }

  /**
   * Every missing number was counted as a gap after the first frame, or passed over by one of the three moves;
   * so the counter reports the missing numbers exactly when the frames evicted, and the gap before the first
   * frame, are as many as the moves passed over.
   */
  predicate ToldExactly(l: Ledger, b: Buffer)
    requires b.log.delivered != []
  {
    var first := b.log.delivered[0].gap;
    && |Missing(l, b)| == Gaps(b.log.delivered) - first + Moves(l)
    && Reported(b) == |b.log.evicted| + Gaps(b.log.delivered)
    && (Reported(b) == |Missing(l, b)| <==> |b.log.evicted| + first == l.trimmed + l.dropped + l.restarted)
  }

  lemma LedgerTells(l: Ledger, b: Buffer)
    requires Inv(b) && GapsAreSkipped(b) && AddsUp(l, b)
    requires b.log.delivered != [] && Increasing(b.log.delivered)
    requires b.log.delivered[|b.log.delivered| - 1].item.num < l.stands
    ensures ToldExactly(l, b)
  {
    assert Accounts(b);
    hide Inv, Increasing, Gaps, Unplayed;
    UnplayedCounts(b.log.delivered, l.stands);
  }

  lemma FreshIsBlank(config: Config)
    ensures AddsUp(BLANK, Fresh(config)) && Inv(Fresh(config)) && GapsAreSkipped(Fresh(config))
  {
  }

  /** Over any run, played in increasing order: the account of the missing numbers, in every state in which playout
      does not stand at or before a frame it has played. */
  lemma LossesAreToldExactly(config: Config, ops: seq<Op>)
    requires InWindow(Fresh(config), ops)
    requires var b := Run(Fresh(config), ops);
             && b.log.delivered != [] && Increasing(b.log.delivered)
             && b.log.delivered[|b.log.delivered| - 1].item.num < Booked(BLANK, Fresh(config), ops).stands
    ensures ToldExactly(Booked(BLANK, Fresh(config), ops), Run(Fresh(config), ops))
  {
    hide Inv, AddsUp, GapsAreSkipped, Run, Booked, Increasing, InWindow, ToldExactly;
    FreshIsBlank(config);
    RunFromFresh(config, ops);
    RunSkipsGaps(Fresh(config), ops);
    RunAddsUp(BLANK, Fresh(config), ops);
    LedgerTells(Booked(BLANK, Fresh(config), ops), Run(Fresh(config), ops));
  }

  /** Numbers between successive deliveries that no gap counted. */
  function Jumps(delivered: seq<Delivery>): int {
    if |delivered| <= 1 then 0
    else
      var n := |delivered| - 1;
      Jumps(delivered[..n]) + delivered[n].item.num - delivered[n - 1].item.num - 1 - delivered[n].gap
  }

  lemma {:induction false} JumpsSum(delivered: seq<Delivery>)
    requires delivered != []
    ensures var n := |delivered| - 1;
            Jumps(delivered) == delivered[n].item.num - delivered[0].item.num - n - Gaps(delivered) + delivered[0].gap
  {
    var n := |delivered| - 1;
    if n > 0 {
      JumpsSum(delivered[..n]);
    } else {
      assert delivered[..0] == [];
    }
  }

  /** The expected number of a running playout is moved by a trim exactly when the timed trim fires. */
  lemma TrimMovesExactly(b: Buffer, now: int)
    requires Inv(b) && b.expected.Some?
    ensures var t := TrimSize(b);
            Trim(b, now).expected != b.expected <==>
              && |t.held| > ThresholdFrames(b.config.dropMs, b.durationMs)
              && t.overflowSinceMs != 0 && now - t.overflowSinceMs >= TRIM_OBSERVE_WINDOW_MS
  {
    hide MaxFrames, ThresholdFrames, Accounts, Ordered;
    var t, threshold := TrimSize(b), ThresholdFrames(b.config.dropMs, b.durationMs);
    ThresholdIsPositive(b.config.dropMs, b.durationMs);
    EvictKeeps(b, MaxFrames(b.config.maxMs, b.durationMs));
    if |t.held| > threshold {
      assert t.expected.value <= t.held[0].num < t.held[|t.held| - threshold].num;
    }
  }

  lemma ThresholdIsPositive(dropMs: int, d: pos)
    ensures ThresholdFrames(dropMs, d) >= 1
  {
  }

  lemma DeliveryStands(l: Ledger, b: Buffer, op: Op)
    requires Inv(b) && Delivers(b, op)
    ensures var c := Apply(b, op);
            && c.log.delivered != []
            && Entry(l, b, op).stands == c.log.delivered[|c.log.delivered| - 1].item.num + 1
  {
    ApplyDelivers(b, op);
    assert op.PopOp? || op.BatchOp? by { OnlyPlayingDelivers(b, op); }
    hide Inv, CeilDiv, BufferedMs, CanStart;
  }

  lemma OnlyPlayingDelivers(b: Buffer, op: Op)
    requires Delivers(b, op)
    ensures op.PopOp? || op.BatchOp?
  {
    hide CeilDiv, Insert, Holds, MaxFrames, ThresholdFrames;
  }

  /** Right after any delivery of any run, played in increasing order: all missing numbers lie between the first
      frame played and the last, and what they are charged is exact just then. */
  lemma DeliveriesTellExactly(config: Config, ops: seq<Op>, op: Op)
    requires InWindow(Fresh(config), ops) && Delivers(Run(Fresh(config), ops), op)
    requires Increasing(Apply(Run(Fresh(config), ops), op).log.delivered)
    ensures var before := Run(Fresh(config), ops);
            var b, l := Apply(before, op), Entry(Booked(BLANK, Fresh(config), ops), before, op);
            && b.log.delivered != []
            && l.stands == b.log.delivered[|b.log.delivered| - 1].item.num + 1
            && ToldExactly(l, b) && Jumps(b.log.delivered) == l.trimmed + l.dropped + l.restarted
  {
    hide Inv, AddsUp, GapsAreSkipped, Run, Booked, Increasing, InWindow, ToldExactly, Delivers, Apply, Entry;
    FreshIsBlank(config);
    RunFromFresh(config, ops);
    RunSkipsGaps(Fresh(config), ops);
    RunAddsUp(BLANK, Fresh(config), ops);
    var before, l := Run(Fresh(config), ops), Booked(BLANK, Fresh(config), ops);
    assert !op.PushOp? by { OnlyPlayingDelivers(before, op); }
    DeliveryStands(l, before, op);
    EntryAddsUp(l, before, op);
    ApplyKeeps(before, op);
    StepSkipsGaps(before, op);
    LedgerTells(Entry(l, before, op), Apply(before, op));
    JumpsAreMoves(Entry(l, before, op), Apply(before, op));
  }

  lemma JumpsAreMoves(l: Ledger, b: Buffer)
    requires AddsUp(l, b) && b.log.delivered != []
    requires l.stands == b.log.delivered[|b.log.delivered| - 1].item.num + 1
    ensures Jumps(b.log.delivered) == Moves(l)
  {
    hide Gaps, Jumps;
    JumpsSum(b.log.delivered);
  }

  lemma StepSkipsGaps(b: Buffer, op: Op)
    requires Inv(b) && GapsAreSkipped(b) && !op.PushOp?
    ensures GapsAreSkipped(Apply(b, op))
  {
    hide Inv;
    RunSkipsGaps(b, [op]);
    assert [op][1..] == [];
  }
}

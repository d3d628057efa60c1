/** What every jitter-buffer operation keeps: the shape of the buffer, an account of every frame
    that was ever accepted, and the order of delivery inside an epoch. */
module JitterInvariants {
  import opened Words
  import opened JitterModel

  function Items(ds: seq<Delivery>): (s: seq<Numbered>)
    ensures |s| == |ds|
  {
    seq(|ds|, i requires 0 <= i < |ds| => ds[i].item)
  }

  /** Nothing is lost and nothing is counted that did not happen: every accepted frame is delivered,
      evicted or still held, and the two drop counters say exactly what they counted. */
  predicate Accounts(b: Buffer) {
    && b.log.pushes == |b.log.accepted| + b.log.duplicates + b.log.late
    && multiset(b.log.accepted)
       == multiset(Items(b.log.delivered)) + multiset(b.log.evicted) + multiset(b.held)
    && b.stats.late == b.log.late
    && b.stats.dropped == b.log.duplicates + |b.log.evicted| + b.log.skipped
  }

  /** Inside an epoch delivered numbers increase, each at least as far as its gap says, and stay below
      the expected number; with nothing expected the current epoch has no delivery. */
  predicate Ordered(b: Buffer) {
    && (forall i, j :: 0 <= i < j < |b.log.delivered| ==> Follows(b.log.delivered[i], b.log.delivered[j]))
    && (forall i :: 0 <= i < |b.log.delivered| ==> Behind(b.log.delivered[i], b.log.epoch, b.expected))
  }

  predicate Follows(d: Delivery, e: Delivery) {
    && d.epoch <= e.epoch
    && (d.epoch == e.epoch ==> d.item.num + e.gap < e.item.num)
  }

  predicate Behind(d: Delivery, epoch: nat, expected: Option<int>) {
    && d.epoch <= epoch
    && (d.epoch == epoch ==> expected.Some? && d.item.num < expected.value)
  }

  predicate Inv(b: Buffer) {
    Shape(b) && Accounts(b) && Ordered(b)
  }

  // ---- ordered insertion ----

  lemma {:induction false} RankSplits(held: seq<Numbered>, num: int)
    requires Ascending(held)
    ensures forall i :: 0 <= i < Rank(held, num) ==> held[i].num < num
    ensures forall i :: Rank(held, num) <= i < |held| ==> num <= held[i].num
    ensures Holds(held, num) <==> exists i :: 0 <= i < |held| && held[i].num == num
  {
    if held != [] && held[0].num < num {
      RankSplits(held[1..], num);
      assert forall i :: 0 <= i < |held[1..]| ==> held[1..][i] == held[i + 1];
    }
  }

  lemma InsertAscends(held: seq<Numbered>, x: Numbered)
    requires Ascending(held) && !Holds(held, x.num)
    ensures Ascending(Insert(held, x))
    ensures forall i :: 0 <= i < |Insert(held, x)| ==> Insert(held, x)[i] == x || Insert(held, x)[i] in held
    ensures multiset(Insert(held, x)) == multiset(held) + multiset{x}
  {
    RankSplits(held, x.num);
    var r := Rank(held, x.num);
    assert r < |held| ==> held[r].num != x.num;
    hide Rank, Holds;
    Parted(held, x, r);
  }

  lemma Parted(held: seq<Numbered>, x: Numbered, r: nat)
    requires Ascending(held) && r <= |held|
    requires forall i :: 0 <= i < r ==> held[i].num < x.num
    requires forall i :: r <= i < |held| ==> held[i].num > x.num
    ensures var more := held[..r] + [x] + held[r..];
            && Ascending(more) && multiset(more) == multiset(held) + multiset{x}
            && forall i :: 0 <= i < |more| ==> more[i] == x || more[i] in held
  {
    assert held == held[..r] + held[r..];
  }

  // ---- the primitive changes ----

  /** A change that leaves the frames, the expected number, the log and the two drop counters alone. */
  lemma SameCore(b: Buffer, c: Buffer)
    requires Inv(b)
    requires c.held == b.held && c.expected == b.expected && c.log == b.log
    requires c.stats.dropped == b.stats.dropped && c.stats.late == b.stats.late
    ensures Inv(c)
  {
  }

  /** A push that is only counted, as a duplicate or as late. */
  lemma RejectKeeps(b: Buffer, c: Buffer)
    requires Inv(b)
    requires c.held == b.held && c.expected == b.expected
    requires c.log == b.log.(pushes := b.log.pushes + 1, duplicates := c.log.duplicates, late := c.log.late)
    requires c.log.duplicates - b.log.duplicates == c.stats.dropped - b.stats.dropped
    requires c.log.late - b.log.late == c.stats.late - b.stats.late
    requires c.log.duplicates + c.log.late == b.log.duplicates + b.log.late + 1
    ensures Inv(c)
  {
  }

  lemma AcceptKeeps(b: Buffer, x: Numbered, c: Buffer)
    requires Inv(b) && Window(b, x.num) && !Holds(b.held, x.num)
    requires b.expected.Some? ==> b.expected.value <= x.num
    requires c.held == Insert(b.held, x) && c.expected == b.expected && c.stats == b.stats
    requires c.log == b.log.(pushes := b.log.pushes + 1, accepted := b.log.accepted + [x])
    ensures Inv(c)
  {
    hide Insert;
    InsertAscends(b.held, x);
    AcceptShape(b, x, c.held);
  }

  lemma AcceptShape(b: Buffer, x: Numbered, held: seq<Numbered>)
    requires Shape(b) && Window(b, x.num) && Ascending(held)
    requires b.expected.Some? ==> b.expected.value <= x.num
    requires forall i :: 0 <= i < |held| ==> held[i] == x || held[i] in b.held
    ensures Shape(b.(held := held))
  {
    forall i, j | 0 <= i < |held| && 0 <= j < |held|
      ensures held[i].num - held[j].num < TWO_31
    {
    }
  }

  lemma EvictKeeps(b: Buffer, n: nat)
    requires Inv(b)
    ensures Inv(EvictTo(b, n))
  {
    hide Shape, Ordered, Accounts;
    SuffixShape(b, Max(|b.held| - n, 0), EvictTo(b, n));
    SameOrder(b, EvictTo(b, n));
    EvictAccounts(b, n);
  }

  lemma EvictAccounts(b: Buffer, n: nat)
    requires Accounts(b)
    ensures Accounts(EvictTo(b, n))
  {
    hide Items;
    Moved(b.log.evicted, b.held, Max(|b.held| - n, 0));
    var delivered := multiset(Items(b.log.delivered));
    var c := EvictTo(b, n);
    assert delivered + multiset(c.log.evicted) + multiset(c.held)
        == delivered + (multiset(c.log.evicted) + multiset(c.held));
  }

  lemma Moved(a: seq<Numbered>, held: seq<Numbered>, k: nat)
    requires k <= |held|
    ensures multiset(a + held[..k]) + multiset(held[k..]) == multiset(a) + multiset(held)
  {
    assert held == held[..k] + held[k..];
  }

  lemma SuffixShape(b: Buffer, k: nat, c: Buffer)
    requires Shape(b) && k <= |b.held|
    requires c.held == b.held[k..]
    requires c.expected == b.expected || (k == 1 && c.expected == Some(b.held[0].num + 1))
    ensures Shape(c)
  {
  }

  lemma SameOrder(b: Buffer, c: Buffer)
    requires Ordered(b)
    requires c.log.delivered == b.log.delivered && c.log.epoch == b.log.epoch && c.expected == b.expected
    ensures Ordered(c)
  {
  }

  lemma CatchUpKeeps(b: Buffer)
    requires Inv(b) && b.held != []
    ensures Inv(CatchUp(b)) && CatchUp(b).expected.Some?
  {
    RaiseKeeps(b, CatchUp(b));
  }

  /** The expected number may move up, to at most the oldest held frame. */
  lemma RaiseKeeps(b: Buffer, c: Buffer)
    requires Inv(b)
    requires c.held == b.held && c.stats == b.stats && c.log == b.log && b.held != []
    requires c.expected == b.expected || c.expected == Some(b.held[0].num)
    ensures Inv(c)
  {
    forall i | 0 <= i < |b.log.delivered|
      ensures Behind(b.log.delivered[i], b.log.epoch, c.expected)
    {
      assert Behind(b.log.delivered[i], b.log.epoch, b.expected);
    }
  }

  lemma EndEpochKeeps(b: Buffer)
    requires Inv(b)
    ensures Inv(EndEpoch(b))
  {
    forall i | 0 <= i < |b.log.delivered|
      ensures Behind(b.log.delivered[i], b.log.epoch + 1, None)
    {
      assert Behind(b.log.delivered[i], b.log.epoch, b.expected);
    }
  }

  lemma DeliverKeeps(b: Buffer, gap: nat)
    requires Inv(b) && b.held != [] && b.expected.Some? && gap == b.held[0].num - b.expected.value
    ensures Inv(Deliver(b, gap))
  {
    hide Shape, Ordered;
    SuffixShape(b, 1, Deliver(b, gap));
    DeliverOrder(b, gap);
    assert b.held == [b.held[0]] + b.held[1..];
    assert Items(Deliver(b, gap).log.delivered) == Items(b.log.delivered) + [b.held[0]];
  }

  lemma DeliverOrder(b: Buffer, gap: nat)
    requires Ordered(b) && b.held != [] && b.expected.Some? && gap == b.held[0].num - b.expected.value
    ensures Ordered(Deliver(b, gap))
  {
    var d := Delivery(b.log.epoch, b.held[0], gap);
    forall i | 0 <= i < |b.log.delivered|
      ensures Follows(b.log.delivered[i], d)
      ensures Behind(b.log.delivered[i], b.log.epoch, Some(b.held[0].num + 1))
    {
      assert Behind(b.log.delivered[i], b.log.epoch, b.expected);
    }
  }

  lemma StartKeeps(b: Buffer)
    requires Inv(b) && b.held != []
    ensures Inv(Start(b))
  {
    RaiseKeeps(b, Start(b));
  }

  // ---- the operations ----

  lemma TrimKeeps(b: Buffer, now: int)
    requires Inv(b)
    ensures Inv(Trim(b, now))
  {
    hide Inv, EvictTo, CatchUp;
    EvictKeeps(b, MaxFrames(b.config.maxMs, b.durationMs));
    var b1 := TrimSize(b);
    EvictFrame(b, MaxFrames(b.config.maxMs, b.durationMs));
    var threshold := ThresholdFrames(b1.config.dropMs, b1.durationMs);
    var b2 := EvictTo(b1, threshold);
    EvictKeeps(b1, threshold);
    EvictFrame(b1, threshold);
    var b3 := b2.(overflowSinceMs := 0);
    SameCore(b2, b3);
    if |b1.held| > threshold {
      CatchUpKeeps(b3);
      SameCore(CatchUp(b3), Counted(CatchUp(b3)));
    }
    SameCore(b1, Counted(b1.(overflowSinceMs := 0)));
    SameCore(b1, Counted(b1.(overflowSinceMs := now)));
    SameCore(b1, Counted(b1));
  }

  lemma EvictFrame(b: Buffer, n: nat)
    ensures |EvictTo(b, n).held| == Min(|b.held|, n)
    ensures EvictTo(b, n).durationMs == b.durationMs && EvictTo(b, n).config == b.config
  {
  }

  lemma PushKeeps(b: Buffer, x: Numbered, packetMs: int, now: int)
    requires Inv(b) && Window(b, x.num)
    ensures Inv(Push(b, x, packetMs, now))
  {
    hide Inv, Trim, Insert;
    if Holds(b.held, x.num) || (b.expected.Some? && x.num < b.expected.value) {
      RejectKeeps(b, Push(b, x, packetMs, now));
    } else {
      var b1 := Inserted(b, x, EffectiveDuration(packetMs));
      AcceptKeeps(b, x, b1);
      TrimKeeps(b1, now);
    }
  }

  lemma PopStartedKeeps(b: Buffer, hardFloor: bool)
    requires Inv(b)
    ensures Inv(PopStarted(b, hardFloor).0)
  {
    hide Inv, Deliver;
    var held := b.(stats := b.stats.(floorHolds := b.stats.floorHolds + 1));
    SameCore(b, Counted(held));
    var ended := b.(stats := b.stats.(underruns := b.stats.underruns + 1));
    SameCore(b, ended);
    EndEpochKeeps(ended);
    SameCore(EndEpoch(ended), Counted(EndEpoch(ended)));
    if b.held != [] && b.expected.Some? {
      GapIsCount(b);
      DeliverKeeps(b, b.held[0].num - b.expected.value);
    }
  }

  lemma GapIsCount(b: Buffer)
    requires Inv(b) && b.held != [] && b.expected.Some?
    ensures 0 <= b.held[0].num - b.expected.value < TWO_31
  {
  }

  lemma PopKeeps(b: Buffer, hardFloor: bool)
    requires Inv(b)
    ensures Inv(Pop(b, hardFloor).0)
  {
    hide Inv, PopStarted;
    SameCore(b, Counted(b));
    SameCore(b, b.(started := true));
    PopStartedKeeps(b, hardFloor);
    if b.held != [] {
      StartKeeps(b);
      PopStartedKeeps(Start(b), hardFloor);
    }
  }

  lemma PopContiguousKeeps(b: Buffer)
    requires Inv(b)
    ensures Inv(PopContiguous(b).0)
  {
    hide Inv, Deliver;
    if b.expected.Some? && b.held != [] && b.held[0].num == b.expected.value {
      DeliverKeeps(b, 0);
    }
  }

  lemma DropKeeps(b: Buffer, ms: int)
    requires Inv(b)
    ensures Inv(DropOldest(b, ms).0)
  {
    hide Inv, EvictTo, CatchUp, EndEpoch, CeilDiv;
    var n := DropOldest(b, ms).1;
    if ms > 0 && b.held != [] {
      EvictKeeps(b, |b.held| - n);
      EvictFrame(b, |b.held| - n);
      var b1 := Counted(EvictTo(b, |b.held| - n));
      SameCore(EvictTo(b, |b.held| - n), b1);
      EndEpochKeeps(b1);
      if b1.held != [] {
        CatchUpKeeps(b1);
      }
    }
  }

  lemma ReconfigureKeeps(b: Buffer, startMs: int, maxMs: int, dropMs: int, now: int)
    requires Inv(b)
    ensures Inv(Reconfigure(b, startMs, maxMs, dropMs, now))
  {
    hide Inv, Trim;
    var c := b.(config := Reconfigured(startMs, maxMs, dropMs));
    SameCore(b, c);
    TrimKeeps(c, now);
  }

  lemma FreshHolds(config: Config)
    ensures Inv(Fresh(config))
  {
  }
}

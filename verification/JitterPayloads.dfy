/** From packets to played frames: what is stored for a packet, and what is handed out. */
module JitterPayloads {
  import opened Words
  import opened LasPackets
  import opened JitterModel
  import opened JitterInvariants
  import opened JitterRuns
  import opened JitterBounds
  import Buffers = PlaybackJitterBuffer

  /** The frame has the packet's bytes, format and sequence, and its duration, or 10 ms when it has none. */
  predicate Carries(f: PcmFrame, p: LasPacket) {
    && f.payload == p.payload
    && f.sampleRate == p.sampleRate
    && f.channels == p.channels
    && f.sequence == p.sequence
    && f.frameDurationMs == (if p.FrameDurationMs() <= 0 then 10 else p.FrameDurationMs())
  }

  /** A call of the buffer: a packet under its unbounded number, or anything else. */
  datatype Call = Arrive(packet: LasPacket, num: int, now: int) | Other(op: Op)

  ghost function OpOf(call: Call): Op {
    match call
    case Arrive(p, num, now) => PushOp(Numbered(num, Buffers.FrameOf(p)), p.FrameDurationMs(), now)
    case Other(op) => op
  }

  ghost function OpsOf(calls: seq<Call>): (ops: seq<Op>)
    ensures |ops| == |calls| && forall k :: 0 <= k < |calls| ==> ops[k] == OpOf(calls[k])
  {
    seq(|calls|, k requires 0 <= k < |calls| => OpOf(calls[k]))
  }

  /** Packets arrive as packets, not as ready-made frames. */
  predicate ByPacket(calls: seq<Call>) {
    forall k :: 0 <= k < |calls| && calls[k].Other? ==> !calls[k].op.PushOp?
  }

  // ---- one push ----

  lemma TrimMoves(b: Buffer, now: int, x: Numbered)
    requires x in b.held
    ensures x in Trim(b, now).held || x in Trim(b, now).log.evicted
    ensures forall y :: y in Trim(b, now).held ==> y in b.held
  {
    hide MaxFrames, ThresholdFrames;
  }

  /** An accepted packet is held, or was the oldest and evicted at once; what is held under its number carries it. */
  lemma AcceptedIsHeld(b: Buffer, p: LasPacket, num: int, now: int)
    requires Inv(b) && Window(b, num) && Accepts(b, Numbered(num, Buffers.FrameOf(p)))
    ensures var c := Apply(b, OpOf(Arrive(p, num, now)));
            && (|| (exists i :: 0 <= i < |c.held| && c.held[i].num == num)
                || (exists i :: 0 <= i < |c.log.evicted| && c.log.evicted[i].num == num))
            && forall i :: 0 <= i < |c.held| && c.held[i].num == num ==> Carries(c.held[i].frame, p)
  {
    var x := Numbered(num, Buffers.FrameOf(p));
    var packetMs := p.FrameDurationMs();
    var a := Inserted(b, x, EffectiveDuration(packetMs));
    assert Carries(x.frame, p);
    PushTrims(b, x, packetMs, now);
    InsertAscends(b.held, x);
    RankSplits(b.held, num);
    assert x in multiset(a.held);
    hide Trim, Insert, Holds, Carries, Inv;
    TrimMoves(a, now, x);
    var c := Apply(b, OpOf(Arrive(p, num, now)));
    forall i | 0 <= i < |c.held| && c.held[i].num == num ensures c.held[i] == x {
      assert c.held[i] in a.held;
    }
  }

  // ---- whole runs ----

  predicate PushedBy(ops: seq<Op>, x: Numbered) {
    exists k :: 0 <= k < |ops| && ops[k].PushOp? && ops[k].x == x
  }

  lemma TrimAccepts(b: Buffer, now: int)
    ensures Trim(b, now).log.accepted == b.log.accepted
  {
    hide MaxFrames, ThresholdFrames;
  }

  lemma StepAccepts(b: Buffer, op: Op, x: Numbered)
    requires x in Apply(b, op).log.accepted
    ensures x in b.log.accepted || (op.PushOp? && op.x == x)
  {
    hide Trim, Insert, Holds, CeilDiv;
    match op
    case PushOp(y, packetMs, now) => TrimAccepts(Inserted(b, y, EffectiveDuration(packetMs)), now);
    case ReconfigureOp(startMs, maxMs, dropMs, now) =>
      TrimAccepts(b.(config := Reconfigured(startMs, maxMs, dropMs)), now);
    case _ =>
  }

  lemma {:induction false} RunAccepts(b: Buffer, ops: seq<Op>, x: Numbered)
    requires x in Run(b, ops).log.accepted
    ensures x in b.log.accepted || PushedBy(ops, x)
    decreases |ops|
  {
    if ops != [] {
      RunAccepts(Apply(b, ops[0]), ops[1..], x);
      if x in Apply(b, ops[0]).log.accepted {
        StepAccepts(b, ops[0], x);
      } else {
        var k :| 0 <= k < |ops[1..]| && ops[1..][k].PushOp? && ops[1..][k].x == x;
        assert ops[k + 1].x == x;
      }
    }
  }

  /** The frame carries a packet that arrived under this number. */
  ghost predicate CarriesArrival(calls: seq<Call>, f: PcmFrame, num: int) {
    exists k :: 0 <= k < |calls| && calls[k].Arrive? && calls[k].num == num && Carries(f, calls[k].packet)
  }

  lemma PushedCarries(calls: seq<Call>, x: Numbered)
    requires ByPacket(calls) && PushedBy(OpsOf(calls), x)
    ensures CarriesArrival(calls, x.frame, x.num)
  {
    var k :| 0 <= k < |calls| && OpsOf(calls)[k].PushOp? && OpsOf(calls)[k].x == x;
    assert calls[k].Arrive? && Carries(x.frame, calls[k].packet);
  }

  lemma KeptWasAccepted(b: Buffer, i: nat)
    requires Accounts(b)
    ensures i < |b.log.delivered| ==> b.log.delivered[i].item in b.log.accepted
    ensures i < |b.held| ==> b.held[i] in b.log.accepted
  {
    if i < |b.log.delivered| {
      assert Items(b.log.delivered)[i] in multiset(Items(b.log.delivered));
      assert b.log.delivered[i].item in multiset(b.log.accepted);
    }
    if i < |b.held| {
      assert b.held[i] in multiset(b.held);
      assert b.held[i] in multiset(b.log.accepted);
    }
  }

  /** Over any run from a fresh buffer, every frame held and every frame handed out carries, byte for byte, a packet
      that arrived under its number. */
  lemma FramesCarryPackets(config: Config, calls: seq<Call>, i: nat)
    requires ByPacket(calls) && InWindow(Fresh(config), OpsOf(calls))
    ensures var b := Run(Fresh(config), OpsOf(calls));
            && (i < |b.held| ==> CarriesArrival(calls, b.held[i].frame, b.held[i].num))
            && (i < |b.log.delivered| ==>
                  CarriesArrival(calls, b.log.delivered[i].item.frame, b.log.delivered[i].item.num))
  {
    hide Run, InWindow, CarriesArrival, OpsOf, PushedBy, Accounts;
    RunFromFresh(config, OpsOf(calls));
    var b := Run(Fresh(config), OpsOf(calls));
    KeptWasAccepted(b, i);
    if i < |b.held| {
      RunAccepts(Fresh(config), OpsOf(calls), b.held[i]);
      PushedCarries(calls, b.held[i]);
    }
    if i < |b.log.delivered| {
      RunAccepts(Fresh(config), OpsOf(calls), b.log.delivered[i].item);
      PushedCarries(calls, b.log.delivered[i].item);
    }
  }

  /** What a pop hands out after any run carries a packet that arrived, under the number that the pop reached. */
  lemma PoppedCarriesPacket(config: Config, calls: seq<Call>, hardFloor: bool)
    requires ByPacket(calls) && InWindow(Fresh(config), OpsOf(calls))
    requires Pop(Run(Fresh(config), OpsOf(calls)), hardFloor).1.Popped?
    ensures var b := Run(Fresh(config), OpsOf(calls));
            var (c, r) := Pop(b, hardFloor);
            c.expected.Some? && CarriesArrival(calls, r.frame, c.expected.value - 1)
  {
    hide Run, InWindow, CarriesArrival, OpsOf, Inv;
    var b := Run(Fresh(config), OpsOf(calls));
    RunFromFresh(config, OpsOf(calls));
    DeliveryAdvances(b, hardFloor);
    FramesCarryPackets(config, calls, 0);
    hide Pop;
  }
}

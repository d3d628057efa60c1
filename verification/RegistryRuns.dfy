/** Safety of the client registry over whole runs of locked sections. */
module RegistryRuns {
  import opened Words
  import opened RegistryModel
  import opened RegistryInvariants

  ghost predicate Possible(s: Registry, ops: seq<Op>)
    decreases ops
  {
    ops == [] || (Enabled(s, ops[0]) && Possible(Apply(s, ops[0]), ops[1..]))
  }

  ghost function Run(s: Registry, ops: seq<Op>): Registry
    requires Possible(s, ops)
    decreases ops
  {
    if ops == [] then s else Run(Apply(s, ops[0]), ops[1..])
  }

  lemma {:induction false} RunKeeps(s: Registry, ops: seq<Op>)
    requires Inv(s) && Possible(s, ops)
    ensures Inv(Run(s, ops))
    decreases ops
  {
    hide Inv, Apply, Enabled;
    if ops != [] {
      StepKeeps(s, ops[0]);
      RunKeeps(Apply(s, ops[0]), ops[1..]);
    }
  }

  /** Every reachable registry, spelled out. */
  lemma RunFromEmpty(ops: seq<Op>)
    requires Possible(EMPTY, ops)
    ensures var s := Run(EMPTY, ops);
            && |s.clients| <= MAX_CLIENTS
            && UniqueKeys(s.clients)
            && Distinct(s.waiting)
            && (forall id :: Queued(s.waiting, id) <==> Streamless(s.clients, id))
            && 0 <= s.settling <= s.gauge
            && s.gauge - |s.clients| - s.settling == s.expired
            && (forall id :: id in s.clients && s.clients[id].plane.LegacyLas1? ==> s.clients[id].codec == Pcm16)
  {
    assert Inv(EMPTY);
    RunKeeps(EMPTY, ops);
    var s := Run(EMPTY, ops);
    hide Run, Possible, Queued, Distinct, Streamless;
    assert AllSound(s.clients, s.served);
  }

  /** Clients that left the registry inside a stream attachment, summed over a run. */
  ghost function Evicted(s: Registry, ops: seq<Op>): int
    requires Possible(s, ops)
    decreases ops
  {
    if ops == [] then 0
    else
      var t := Apply(s, ops[0]);
      (if ops[0].Plug? then |s.clients| - |t.clients| else 0) + Evicted(t, ops[1..])
  }

  lemma PlugEvicts(s: Registry, stream: nat, now: nat, scanned: Option<nat>)
    requires Inv(s) && Enabled(s, Plug(stream, now, scanned))
    ensures var t := Attach(s, stream, now, scanned);
            |s.clients| - |t.clients| == t.expired - s.expired == |ExpiredIds(s.waiting, now)|
  {
    hide Purged, AllSound, UniqueKeys, ExpiredIds, StillWaiting;
    ExpiredAreGone(s, now);
    AttachServesTheQueue(s, stream, now, scanned);
    var t := Purged(s, now);
    if t.waiting != [] {
      var first := t.waiting[0].client;
      assert first in t.clients;
      KeysCount(t.clients, first, t.clients[first].(transport := Some(ViaUsb(stream))));
    }
  }

  lemma StepLeak(s: Registry, op: Op)
    requires Inv(s) && Enabled(s, op)
    ensures var t := Apply(s, op);
            t.expired - s.expired == if op.Plug? then |s.clients| - |t.clients| else 0
  {
    hide Inv, Attach, Without, Chosen, Scanned, Negotiated, Queued;
    if op.Plug? {
      PlugEvicts(s, op.stream, op.at, op.scanned);
    }
  }

  lemma GaugeIs(s: Registry)
    requires Inv(s)
    ensures s.gauge - |s.clients| - s.settling == s.expired
  {
  }

  /** The session gauge is never repaired: it stays ahead by every client evicted so far. */
  lemma {:induction false} GaugeLeaksEvictions(s: Registry, ops: seq<Op>)
    requires Inv(s) && Possible(s, ops)
    ensures var t := Run(s, ops);
            t.gauge - |t.clients| - t.settling == s.gauge - |s.clients| - s.settling + Evicted(s, ops)
    decreases ops
  {
    hide Inv, Apply, Enabled;
    GaugeIs(s);
    if ops != [] {
      var t := Apply(s, ops[0]);
      StepKeeps(s, ops[0]);
      GaugeIs(t);
      StepLeak(s, ops[0]);
      GaugeLeaksEvictions(t, ops[1..]);
    }
  }

  lemma SnapshotsCarry(s: Registry, id: nat)
    requires Inv(s) && id in Snapshots(s)
    ensures Snapshots(s)[id].id == id
    ensures Snapshots(s)[id].plane.LegacyLas1? ==> Snapshots(s)[id].codec == Pcm16
    ensures id !in s.served ==> Snapshots(s)[id].firstPacket
  {
  }

  lemma OneMore(s: Registry, op: Op, ops: seq<Op>)
    requires Enabled(s, op) && Possible(Apply(s, op), ops)
    ensures Possible(s, [op] + ops) && Run(s, [op] + ops) == Run(Apply(s, op), ops)
  {
    hide Enabled, Apply;
    assert ([op] + ops)[1..] == ops;
  }

  // The queue is fair.

  predicate Before(waiting: seq<Waiting>, a: nat, b: nat) {
    exists j, k :: 0 <= j < k < |waiting| && waiting[j].client == a && waiting[k].client == b
  }

  lemma BeforeSplits(e: Waiting, rest: seq<Waiting>, a: nat, b: nat)
    ensures Before([e] + rest, a, b) <==> (e.client == a && Queued(rest, b)) || Before(rest, a, b)
  {
    var all := [e] + rest;
    if Before(all, a, b) {
      var j, k :| 0 <= j < k < |all| && all[j].client == a && all[k].client == b;
      assert rest[k - 1].client == b;
      assert j > 0 ==> rest[j - 1].client == a;
    }
    if e.client == a && Queued(rest, b) {
      var k :| 0 <= k < |rest| && rest[k].client == b;
      assert all[0].client == a && all[k + 1].client == b;
    }
    if Before(rest, a, b) {
      var j, k :| 0 <= j < k < |rest| && rest[j].client == a && rest[k].client == b;
      assert all[j + 1].client == a && all[k + 1].client == b;
    }
  }

  lemma {:induction false} WithoutFair(waiting: seq<Waiting>, id: nat, a: nat, b: nat)
    requires Before(waiting, a, b) && a != id && b != id
    ensures Before(Without(waiting, id), a, b)
  {
    var e, rest := waiting[0], waiting[1..];
    assert waiting == [e] + rest;
    hide Before, Queued;
    BeforeSplits(e, rest, a, b);
    WithoutQueued(rest, id, b);
    if Before(rest, a, b) {
      WithoutFair(rest, id, a, b);
    }
    BeforeSplits(e, Without(rest, id), a, b);
  }

  lemma BeforeQueues(waiting: seq<Waiting>, a: nat, b: nat)
    requires Before(waiting, a, b)
    ensures Queued(waiting, a) && Queued(waiting, b)
  {
  }

  lemma {:induction false} PurgeFair(waiting: seq<Waiting>, now: nat, a: nat, b: nat)
    requires Distinct(waiting) && Before(waiting, a, b)
    requires Queued(StillWaiting(waiting, now), a) && Queued(StillWaiting(waiting, now), b)
    ensures Before(StillWaiting(waiting, now), a, b)
  {
    var e, rest := waiting[0], waiting[1..];
    assert waiting == [e] + rest;
    BeforeSplits(e, rest, a, b);
    DistinctSplits(e, rest);
    hide Before, Queued, Distinct;
    QueuedSplits(e, StillWaiting(rest, now), a);
    QueuedSplits(e, StillWaiting(rest, now), b);
    BeforeSplits(e, StillWaiting(rest, now), a, b);
    PurgeQueued(rest, now, e.client);
    if Before(rest, a, b) {
      BeforeQueues(rest, a, b);
      PurgeFair(rest, now, a, b);
    }
  }

  lemma TailFair(waiting: seq<Waiting>, a: nat, b: nat)
    requires Distinct(waiting) && Before(waiting, a, b) && Queued(waiting[1..], a)
    ensures Before(waiting[1..], a, b)
  {
    var e, rest := waiting[0], waiting[1..];
    assert waiting == [e] + rest;
    DistinctSplits(e, rest);
    hide Before, Distinct, Queued;
    BeforeSplits(e, rest, a, b);
  }

  lemma AppendFair(waiting: seq<Waiting>, last: Waiting, a: nat, b: nat)
    requires Before(waiting, a, b)
    ensures Before(waiting + [last], a, b)
  {
    var all := waiting + [last];
    var j, k :| 0 <= j < k < |waiting| && waiting[j].client == a && waiting[k].client == b;
    assert all[j].client == a && all[k].client == b;
  }

  lemma AttachFair(s: Registry, stream: nat, now: nat, scanned: Option<nat>, a: nat, b: nat)
    requires Inv(s) && Enabled(s, Plug(stream, now, scanned)) && Before(s.waiting, a, b)
    requires var after := Attach(s, stream, now, scanned).waiting; Queued(after, a) && Queued(after, b)
    ensures Before(Attach(s, stream, now, scanned).waiting, a, b)
  {
    var t := Purged(s, now);
    PurgeKeeps(s, now);
    ExpiredAreGone(s, now);
    AttachServesTheQueue(s, stream, now, scanned);
    hide Attach, Before, Purged, AllSound, UniqueKeys;
    if t.waiting != [] {
      TailQueued(t.waiting, a);
      TailQueued(t.waiting, b);
    }
    PurgeFair(s.waiting, now, a, b);
    if t.waiting != [] {
      TailFair(t.waiting, a, b);
    }
  }

  lemma TailQueued(waiting: seq<Waiting>, id: nat)
    requires waiting != [] && Queued(waiting[1..], id)
    ensures Queued(waiting, id)
  {
    assert waiting == [waiting[0]] + waiting[1..];
    QueuedSplits(waiting[0], waiting[1..], id);
  }

  lemma JoinFair(s: Registry, r: Request, now: nat, replaced: Option<nat>, a: nat, b: nat)
    requires Inv(s) && Enabled(s, Join(r, now, replaced)) && Before(s.waiting, a, b)
    requires var after := Register(s, r, now, replaced).0.waiting; Queued(after, a) && Queued(after, b)
    ensures Before(Register(s, r, now, replaced).0.waiting, a, b)
  {
    BeforeQueues(s.waiting, a, b);
    var left := Vacated(s, replaced).waiting;
    hide Queued, Before, Without, Negotiated, Distinct, AllSound, UniqueKeys;
    JoinersQueue(left, r.id, now, a);
    JoinersQueue(left, r.id, now, b);
    if replaced.Some? {
      WithoutQueued(s.waiting, replaced.value, a);
      WithoutQueued(s.waiting, replaced.value, b);
      WithoutFair(s.waiting, replaced.value, a, b);
    }
    AppendFair(left, Waiting(r.id, now), a, b);
  }

  /** No step lets one waiting client overtake another. */
  lemma QueueIsFair(s: Registry, op: Op, a: nat, b: nat)
    requires Inv(s) && Enabled(s, op) && Before(s.waiting, a, b)
    requires Queued(Apply(s, op).waiting, a) && Queued(Apply(s, op).waiting, b)
    ensures Before(Apply(s, op).waiting, a, b)
  {
    hide Before, Queued, Tidy, Attach, Negotiated, Replaceable, Scanned, Without;
    match op
    case Join(r, at, replaced) =>
      JoinFair(s, r, at, replaced, a, b);
    case Leave(id) =>
      WithoutQueued(s.waiting, id, a);
      WithoutQueued(s.waiting, id, b);
      WithoutFair(s.waiting, id, a, b);
    case Plug(stream, at, scanned) => AttachFair(s, stream, at, scanned, a, b);
    case Lose(id, at) => AppendFair(s.waiting, Waiting(id, at), a, b);
    case _ =>
  }
}

/** Over runs of the registry no forwarded stream is shared. */
module RegistryStreams {
  import opened Words
  import opened RegistryModel
  import opened RegistryInvariants
  import opened RegistryRuns

  // Nobody shares a stream.

  predicate Holds(s: Registry, id: nat, stream: nat) {
    id in s.clients && s.clients[id].transport == Some(ViaUsb(stream))
  }

  /** Every stream has one place: in the queue once, or with one client. */
  ghost predicate Owned(s: Registry) {
    && (forall j, k :: 0 <= j < k < |s.streams| ==> s.streams[j] != s.streams[k])
    && (forall id, stream :: Holds(s, id, stream) ==> stream !in s.streams)
    && forall i, j, stream :: Holds(s, i, stream) && Holds(s, j, stream) ==> i == j
  }

  /** A forwarded connection is a new one. */
  ghost predicate FreshPlug(s: Registry, op: Op) {
    op.Plug? ==> op.stream !in s.streams && forall id :: !Holds(s, id, op.stream)
  }

  ghost predicate FreshPlugs(s: Registry, ops: seq<Op>)
    requires Possible(s, ops)
    decreases ops
  {
    ops == [] || (FreshPlug(s, ops[0]) && FreshPlugs(Apply(s, ops[0]), ops[1..]))
  }

  /** No more is held or queued than before. */
  ghost predicate Fewer(s: Registry, t: Registry) {
    t.streams == s.streams && forall id, stream :: Holds(t, id, stream) ==> Holds(s, id, stream)
  }

  lemma FewerOwned(s: Registry, t: Registry)
    requires Owned(s) && Fewer(s, t)
    ensures Owned(t)
  {
    hide Holds;
  }

  lemma JoinOwned(s: Registry, r: Request, now: nat)
    requires Owned(s) && r.id !in s.clients
    ensures Owned(Joined(s, r, now))
  {
    var t := Joined(s, r, now);
    forall id, stream | Holds(t, id, stream)
      ensures || Holds(s, id, stream)
              || (id == r.id && s.streams != [] && stream == s.streams[0] && t.streams == s.streams[1..])
    {
    }
    assert s.streams != [] ==> s.streams == [s.streams[0]] + s.streams[1..];
    assert forall stream :: stream in t.streams ==> stream in s.streams;
    hide Holds, Joined;
  }

  lemma ServedOwned(t: Registry, first: nat, stream: nat, waiting: seq<Waiting>)
    requires Owned(t) && Streamless(t.clients, first)
    requires stream !in t.streams && forall id :: !Holds(t, id, stream)
    ensures Owned(t.(waiting := waiting,
                     clients := t.clients[first := t.clients[first].(transport := Some(ViaUsb(stream)))]))
  {
    var u := t.(waiting := waiting,
                clients := t.clients[first := t.clients[first].(transport := Some(ViaUsb(stream)))]);
    forall id, x
      ensures Holds(u, id, x) <==> if id == first then x == stream else Holds(t, id, x)
    {
    }
    hide Holds, Streamless;
  }

  lemma QueuedOwned(t: Registry, stream: nat)
    requires Owned(t) && stream !in t.streams && forall id :: !Holds(t, id, stream)
    ensures Owned(t.(streams := t.streams + [stream]))
  {
    var u := t.(streams := t.streams + [stream]);
    assert forall id, x :: Holds(u, id, x) <==> Holds(t, id, x);
    hide Holds;
  }

  lemma PurgedHolds(s: Registry, now: nat)
    requires QueueExact(s.clients, s.waiting)
    ensures Fewer(s, Purged(s, now))
  {
    ExpiredAreGone(s, now);
    hide Purged, QueueExact, IdSet, ExpiredIds, StillWaiting;
  }

  lemma PlugOwned(s: Registry, stream: nat, now: nat, scanned: Option<nat>)
    requires Inv(s) && Enabled(s, Plug(stream, now, scanned)) && Owned(s) && FreshPlug(s, Plug(stream, now, scanned))
    ensures Owned(Attach(s, stream, now, scanned))
  {
    var t := Purged(s, now);
    PurgedHolds(s, now);
    FewerOwned(s, t);
    AttachServesTheQueue(s, stream, now, scanned);
    hide Purged, Attach, Tidy, Holds, Owned, Scanned, Streamless;
    if t.waiting != [] {
      ServedOwned(t, t.waiting[0].client, stream, t.waiting[1..]);
    } else {
      QueuedOwned(t, stream);
    }
  }

  lemma StepOwned(s: Registry, op: Op)
    requires Inv(s) && Enabled(s, op) && Owned(s) && FreshPlug(s, op)
    ensures Owned(Apply(s, op))
  {
    hide Tidy, Purged, Without, Joined, Replaceable, Negotiated, Scanned, Queued;
    match op
    case Join(r, at, replaced) => RegisterOwned(s, r, at, replaced);
    case Plug(stream, at, scanned) => PlugOwned(s, stream, at, scanned);
    case _ =>
      assert Fewer(s, Apply(s, op));
      hide Apply, Holds, Owned;
      FewerOwned(s, Apply(s, op));
  }

  lemma RegisterOwned(s: Registry, r: Request, now: nat, replaced: Option<nat>)
    requires Owned(s) && r.id !in s.clients
    ensures Owned(Register(s, r, now, replaced).0)
  {
    var t := Vacated(s, replaced);
    hide Joined, Without;
    assert Fewer(s, t);
    FewerOwned(s, t);
    JoinOwned(t, r, now);
    var u := Register(s, r, now, replaced).0;
    assert |t.clients| < MAX_CLIENTS ==> Fewer(Joined(t, r, now), u);
    FewerOwned(if |t.clients| < MAX_CLIENTS then Joined(t, r, now) else t, u);
  }

  /** Over any run no stream is given to two clients, or given away while it is queued. */
  lemma {:induction false} StreamsStayOwned(s: Registry, ops: seq<Op>)
    requires Inv(s) && Owned(s) && Possible(s, ops) && FreshPlugs(s, ops)
    ensures Owned(Run(s, ops))
    decreases ops
  {
    hide Inv, Apply, Enabled, Owned, FreshPlug;
    if ops != [] {
      StepKeeps(s, ops[0]);
      StepOwned(s, ops[0]);
      StreamsStayOwned(Apply(s, ops[0]), ops[1..]);
    }
  }
}

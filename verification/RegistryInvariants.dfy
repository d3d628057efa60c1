/** What every locked section of the registry keeps. */
module RegistryInvariants {
  import opened Words
  import opened RegistryModel
  import DataPlane

  datatype Op =
    | Join(request: Request, at: nat, replaced: Option<nat>)
    | Leave(id: nat)
    | Decrement
    | Tune(id: nat, mode: AudioMode, rate: Option<u32>, codec: Option<CodecSelection>)
    | Plug(stream: nat, at: nat, scanned: Option<nat>)
    | Lose(id: nat, at: nat)
    | Broadcast

  ghost predicate Negotiated(r: Request) {
    exists v2Session, plane, codec, caps :: Path(r.plane, r.codec) == Negotiate(v2Session, plane, codec, caps)
  }

  /** A registration brings a path the negotiation chose and an identifier never seen before. */
  ghost predicate Enabled(s: Registry, op: Op) {
    match op
    case Join(r, _, replaced) =>
      r.id !in s.clients && r.id !in s.served && Negotiated(r) && Chosen(s, r, replaced)
    case Decrement => s.settling > 0
    case Plug(_, at, scanned) => Scanned(Purged(s, at), scanned)
    case _ => true
  }

  ghost function Apply(s: Registry, op: Op): Registry
    requires Enabled(s, op)
  {
    match op
    case Join(r, at, replaced) => Register(s, r, at, replaced).0
    case Leave(id) => Remove(s, id)
    case Decrement => Settle(s)
    case Tune(id, mode, rate, codec) => SetMode(s, id, mode, rate, codec)
    case Plug(stream, at, scanned) => Attach(s, stream, at, scanned)
    case Lose(id, at) => MarkLost(s, id, at)
    case Broadcast => TakeBroadcast(s)
  }

  // The invariant.

  predicate Sound(id: nat, c: Client, served: set<nat>) {
    && c.id == id
    && (c.plane.LegacyLas1? ==> c.codec == Pcm16)
    && (id !in served ==> c.firstPacket)
    && (c.transport.Some? && c.transport.value.ViaUsb? ==> c.prefersUsb)
  }

  predicate AllSound(clients: map<nat, Client>, served: set<nat>) {
    forall id :: id in clients ==> Sound(id, clients[id], served)
  }

  predicate UniqueKeys(clients: map<nat, Client>) {
    forall i, j :: i in clients && j in clients && clients[i].key == clients[j].key ==> i == j
  }

  /** The queue holds each USB client without a stream once, and nobody else. */
  ghost predicate QueueExact(clients: map<nat, Client>, waiting: seq<Waiting>) {
    && Distinct(waiting)
    && forall id :: Queued(waiting, id) <==> Streamless(clients, id)
  }

  ghost predicate Tidy(clients: map<nat, Client>, waiting: seq<Waiting>, served: set<nat>) {
    AllSound(clients, served) && UniqueKeys(clients) && QueueExact(clients, waiting)
  }

  ghost predicate Inv(s: Registry) {
    && Tidy(s.clients, s.waiting, s.served)
    && |s.clients| <= MAX_CLIENTS
    && s.gauge == |s.clients| + s.expired + s.settling
  }

  // Filtering the queue.

  lemma QueuedSplits(e: Waiting, rest: seq<Waiting>, id: nat)
    ensures Queued([e] + rest, id) <==> e.client == id || Queued(rest, id)
  {
    var all := [e] + rest;
    if Queued(rest, id) {
      var k :| 0 <= k < |rest| && rest[k].client == id;
      assert all[k + 1].client == id;
    }
    if Queued(all, id) && e.client != id {
      var k :| 0 <= k < |all| && all[k].client == id;
      assert rest[k - 1].client == id;
    }
    if e.client == id {
      assert all[0].client == id;
    }
  }

  lemma DistinctSplits(e: Waiting, rest: seq<Waiting>)
    ensures Distinct([e] + rest) <==> Distinct(rest) && !Queued(rest, e.client)
  {
    var all := [e] + rest;
    if Distinct(all) {
      forall j, k | 0 <= j < k < |rest| ensures rest[j].client != rest[k].client {
        assert all[j + 1].client != all[k + 1].client;
      }
      forall k | 0 <= k < |rest| ensures rest[k].client != e.client {
        assert all[0].client != all[k + 1].client;
      }
    }
    if Distinct(rest) && !Queued(rest, e.client) {
      forall j, k | 0 <= j < k < |all| ensures all[j].client != all[k].client {
        assert all[k] == rest[k - 1];
      }
    }
  }

  lemma {:induction false} WithoutQueued(waiting: seq<Waiting>, id: nat, other: nat)
    ensures Queued(Without(waiting, id), other) <==> other != id && Queued(waiting, other)
  {
    if waiting != [] {
      assert waiting == [waiting[0]] + waiting[1..];
      QueuedSplits(waiting[0], waiting[1..], other);
      QueuedSplits(waiting[0], Without(waiting[1..], id), other);
      WithoutQueued(waiting[1..], id, other);
    }
  }

  lemma {:induction false} WithoutDistinct(waiting: seq<Waiting>, id: nat)
    requires Distinct(waiting)
    ensures Distinct(Without(waiting, id))
  {
    if waiting != [] {
      assert waiting == [waiting[0]] + waiting[1..];
      DistinctSplits(waiting[0], waiting[1..]);
      WithoutDistinct(waiting[1..], id);
      WithoutQueued(waiting[1..], id, waiting[0].client);
      DistinctSplits(waiting[0], Without(waiting[1..], id));
    }
  }

  lemma {:induction false} WithoutAbsent(waiting: seq<Waiting>, id: nat)
    requires !Queued(waiting, id)
    ensures Without(waiting, id) == waiting
  {
    if waiting != [] {
      assert waiting == [waiting[0]] + waiting[1..];
      QueuedSplits(waiting[0], waiting[1..], id);
      WithoutAbsent(waiting[1..], id);
    }
  }

  lemma {:induction false} PurgeQueued(waiting: seq<Waiting>, now: nat, id: nat)
    requires Distinct(waiting)
    ensures Queued(waiting, id) <==> Queued(StillWaiting(waiting, now), id) || id in ExpiredIds(waiting, now)
    ensures !(Queued(StillWaiting(waiting, now), id) && id in ExpiredIds(waiting, now))
  {
    if waiting != [] {
      assert waiting == [waiting[0]] + waiting[1..];
      DistinctSplits(waiting[0], waiting[1..]);
      PurgeQueued(waiting[1..], now, id);
      QueuedSplits(waiting[0], waiting[1..], id);
      QueuedSplits(waiting[0], StillWaiting(waiting[1..], now), id);
    }
  }

  /** Whoever waited too long is dropped, and nobody else. */
  lemma {:induction false} ExpiresExactly(waiting: seq<Waiting>, now: nat, id: nat)
    ensures id in ExpiredIds(waiting, now) <==>
              exists k :: 0 <= k < |waiting| && waiting[k].client == id && TimedOut(waiting[k], now)
  {
    if waiting != [] {
      var rest := waiting[1..];
      ExpiresExactly(rest, now, id);
      hide TimedOut;
      if k :| 0 <= k < |waiting| && waiting[k].client == id && TimedOut(waiting[k], now) {
        assert k > 0 ==> rest[k - 1] == waiting[k];
      }
      if k :| 0 <= k < |rest| && rest[k].client == id && TimedOut(rest[k], now) {
        assert waiting[k + 1] == rest[k];
      }
      assert TimedOut(waiting[0], now) ==> waiting[0].client in ExpiredIds(waiting, now);
    }
  }

  lemma {:induction false} PurgeDistinct(waiting: seq<Waiting>, now: nat)
    requires Distinct(waiting)
    ensures Distinct(StillWaiting(waiting, now))
    ensures forall j, k :: 0 <= j < k < |ExpiredIds(waiting, now)| ==>
              ExpiredIds(waiting, now)[j] != ExpiredIds(waiting, now)[k]
  {
    if waiting != [] {
      var e, rest := waiting[0], waiting[1..];
      assert waiting == [e] + rest;
      DistinctSplits(e, rest);
      PurgeDistinct(rest, now);
      PurgeQueued(rest, now, e.client);
      DistinctSplits(e, StillWaiting(rest, now));
    }
  }

  // One lemma per locked section: it keeps the invariant.

  lemma KeysCount<V>(m: map<nat, V>, id: nat, v: V)
    ensures |m - {id}| == |m| - if id in m then 1 else 0
    ensures |m[id := v]| == |m| + if id in m then 0 else 1
  {
    assert (m - {id}).Keys == m.Keys - {id};
    assert m[id := v].Keys == m.Keys + {id};
  }

  lemma DroppingUnqueues(clients: map<nat, Client>, waiting: seq<Waiting>, id: nat)
    requires QueueExact(clients, waiting)
    ensures QueueExact(clients - {id}, Without(waiting, id))
  {
    hide Distinct, Queued, Without;
    WithoutDistinct(waiting, id);
    forall other ensures Queued(Without(waiting, id), other) <==> Streamless(clients - {id}, other) {
      WithoutQueued(waiting, id, other);
    }
  }

  lemma FewerAreSound(clients: map<nat, Client>, id: nat, served: set<nat>)
    requires AllSound(clients, served) && UniqueKeys(clients)
    ensures AllSound(clients - {id}, served) && UniqueKeys(clients - {id})
  {
    hide Sound;
  }

  lemma DroppedTidies(s: Registry, id: nat)
    requires Tidy(s.clients, s.waiting, s.served)
    ensures Tidy(Dropped(s, id).clients, Dropped(s, id).waiting, s.served)
    ensures |Dropped(s, id).clients| == |s.clients| - if id in s.clients then 1 else 0
  {
    DroppingUnqueues(s.clients, s.waiting, id);
    FewerAreSound(s.clients, id, s.served);
    hide QueueExact, Without, AllSound, UniqueKeys;
    if id in s.clients {
      KeysCount(s.clients, id, s.clients[id]);
    } else {
      assert s.clients - {id} == s.clients;
    }
  }

  lemma VacatedTidies(s: Registry, replaced: Option<nat>)
    requires Tidy(s.clients, s.waiting, s.served) && (replaced.Some? ==> replaced.value in s.clients)
    ensures var t := Vacated(s, replaced);
            && Tidy(t.clients, t.waiting, s.served)
            && t == s.(clients := t.clients, waiting := t.waiting) && t.clients.Keys <= s.clients.Keys
            && |t.clients| == |s.clients| - if replaced.Some? then 1 else 0
  {
    hide Tidy, Without;
    if replaced.Some? {
      DroppedTidies(s, replaced.value);
    }
  }

  lemma JoinersQueue(waiting: seq<Waiting>, id: nat, now: nat, other: nat)
    ensures Queued(waiting + [Waiting(id, now)], other) <==> Queued(waiting, other) || other == id
  {
    var all := waiting + [Waiting(id, now)];
    assert all[|waiting|].client == id;
    if Queued(waiting, other) {
      var k :| 0 <= k < |waiting| && waiting[k].client == other;
      assert all[k].client == other;
    }
  }

  lemma QueueGrows(clients: map<nat, Client>, waiting: seq<Waiting>, id: nat, c: Client, now: nat)
    requires QueueExact(clients, waiting) && !Streamless(clients, id)
    requires c.prefersUsb && c.transport.None?
    ensures QueueExact(clients[id := c], waiting + [Waiting(id, now)])
  {
    var all := waiting + [Waiting(id, now)];
    assert !Queued(waiting, id);
    assert Distinct(all);
    hide Queued, Distinct;
    forall other ensures Queued(all, other) <==> Streamless(clients[id := c], other) {
      JoinersQueue(waiting, id, now, other);
    }
  }

  lemma QueueUntouched(clients: map<nat, Client>, waiting: seq<Waiting>, id: nat, c: Client)
    requires QueueExact(clients, waiting)
    requires (c.prefersUsb && c.transport.None?) == Streamless(clients, id)
    ensures QueueExact(clients[id := c], waiting)
  {
    hide Queued, Distinct;
    forall other ensures Streamless(clients[id := c], other) == Streamless(clients, other) {
    }
  }

  lemma SoundUpdate(clients: map<nat, Client>, served: set<nat>, id: nat, c: Client)
    requires AllSound(clients, served) && UniqueKeys(clients) && Sound(id, c, served)
    requires forall other :: other in clients && clients[other].key == c.key ==> other == id
    ensures AllSound(clients[id := c], served) && UniqueKeys(clients[id := c])
    ensures |clients[id := c]| == |clients| + if id in clients then 0 else 1
  {
    hide Sound;
    KeysCount(clients, id, c);
  }

  lemma JoinedTidies(s: Registry, r: Request, now: nat)
    requires Tidy(s.clients, s.waiting, s.served) && r.id !in s.clients && !KeyTaken(s, r.key) && r.id !in s.served
    requires r.plane.LegacyLas1? ==> r.codec == Pcm16
    ensures var t := Joined(s, r, now);
            && Tidy(t.clients, t.waiting, t.served)
            && |t.clients| == |s.clients| + 1 && t.gauge == s.gauge + 1
            && t.expired == s.expired && t.settling == s.settling
  {
    hide QueueExact, AllSound, UniqueKeys;
    var t := Joined(s, r, now);
    var c := t.clients[r.id];
    SoundUpdate(s.clients, s.served, r.id, c);
    if r.kind.Usb? && s.streams == [] {
      QueueGrows(s.clients, s.waiting, r.id, c, now);
    } else {
      QueueUntouched(s.clients, s.waiting, r.id, c);
    }
  }

  /** What negotiation yields, codec by codec. */
  lemma NegotiationExactly(v2Session: bool, plane: DataPlane.Format, codec: CodecSelection, caps: Capabilities)
    ensures var p := Negotiate(v2Session, plane, codec, caps);
            && (p.plane.V2Header? <==> v2Session && plane.V2Header?)
            && (p.codec == Opus <==> p.plane.V2Header? && codec == Opus && (caps.opus || caps.opusExperimental))
            && (p.codec == Pcm24 <==> p.plane.V2Header? && codec == Pcm24 && caps.hiresPcm24)
  {
  }

  lemma ChosenFreesTheKey(s: Registry, r: Request, replaced: Option<nat>)
    requires UniqueKeys(s.clients) && Chosen(s, r, replaced)
    ensures replaced.Some? ==> replaced.value in s.clients
    ensures !KeyTaken(Vacated(s, replaced), r.key)
  {
    if KeyTaken(s, r.key) {
      var id :| id in s.clients && s.clients[id].key == r.key;
      assert Replaceable(s, r, id);
    }
  }

  lemma RegisterKeeps(s: Registry, r: Request, now: nat, replaced: Option<nat>)
    requires Inv(s) && Enabled(s, Join(r, now, replaced))
    ensures Inv(Register(s, r, now, replaced).0)
    ensures replaced.Some? ==> Register(s, r, now, replaced).1
  {
    hide Joined, Dropped, UniqueKeys, QueueExact, AllSound, Replaceable, Negotiate, Chosen, KeyTaken;
    assert UniqueKeys(s.clients);
    ChosenFreesTheKey(s, r, replaced);
    VacatedTidies(s, replaced);
    var v2Session, plane, codec, caps :| Path(r.plane, r.codec) == Negotiate(v2Session, plane, codec, caps);
    NegotiationExactly(v2Session, plane, codec, caps);
    var t := Vacated(s, replaced);
    if |t.clients| < MAX_CLIENTS {
      JoinedTidies(t, r, now);
    }
  }

  lemma RemoveKeeps(s: Registry, id: nat)
    requires Inv(s)
    ensures Inv(Remove(s, id))
  {
    hide Tidy;
    DroppedTidies(s, id);
  }

  lemma TuningKeeps(s: Registry, id: nat, mode: AudioMode, rate: Option<u32>, codec: Option<CodecSelection>)
    requires Inv(s)
    ensures Inv(SetMode(s, id, mode, rate, codec))
  {
    if id in s.clients {
      var c := Retuned(s.clients[id], mode, rate, codec);
      assert Sound(id, s.clients[id], s.served);
      hide QueueExact, AllSound;
      SoundUpdate(s.clients, s.served, id, c);
      QueueUntouched(s.clients, s.waiting, id, c);
    }
  }

  lemma LosingKeeps(s: Registry, id: nat, now: nat)
    requires Inv(s)
    ensures Inv(MarkLost(s, id, now))
  {
    if id in s.clients {
      var c := s.clients[id].(transport := None);
      assert Queued(s.waiting, id) == Streamless(s.clients, id);
      assert Sound(id, s.clients[id], s.served);
      hide QueueExact, Queued, AllSound;
      SoundUpdate(s.clients, s.served, id, c);
      if c.prefersUsb && !Queued(s.waiting, id) {
        QueueGrows(s.clients, s.waiting, id, c, now);
      } else {
        QueueUntouched(s.clients, s.waiting, id, c);
      }
    }
  }

  lemma TakenSound(s: Registry)
    requires AllSound(s.clients, s.served)
    ensures AllSound(TakeBroadcast(s).clients, TakeBroadcast(s).served)
  {
    var t := TakeBroadcast(s);
    forall id | id in t.clients ensures Sound(id, t.clients[id], t.served) {
      assert Sound(id, s.clients[id], s.served);
    }
  }

  lemma TakenStreamless(s: Registry, id: nat)
    ensures Streamless(TakeBroadcast(s).clients, id) == Streamless(s.clients, id)
  {
  }

  lemma BroadcastKeeps(s: Registry)
    requires Inv(s)
    ensures Inv(TakeBroadcast(s))
  {
    var t := TakeBroadcast(s);
    assert t.clients.Keys == s.clients.Keys;
    TakenSound(s);
    hide AllSound, Queued, Distinct, Reachable;
    assert UniqueKeys(t.clients);
    hide UniqueKeys, Streamless;
    forall id ensures Streamless(t.clients, id) == Streamless(s.clients, id) {
      TakenStreamless(s, id);
    }
  }

  // Expiry.

  ghost predicate NoneQueued(waiting: seq<Waiting>, ids: seq<nat>) {
    forall k :: 0 <= k < |ids| ==> !Queued(waiting, ids[k])
  }

  predicate DistinctIds(ids: seq<nat>) {
    forall j, k :: 0 <= j < k < |ids| ==> ids[j] != ids[k]
  }

  function IdSet(ids: seq<nat>): set<nat> {
    set id | id in ids
  }

  lemma HeadAndRest(clients: map<nat, Client>, ids: seq<nat>)
    ensures ids == [] ==> clients - IdSet(ids) == clients
    ensures ids != [] ==> clients - IdSet(ids) == (clients - {ids[0]}) - IdSet(ids[1..])
  {
    if ids != [] {
      assert IdSet(ids) == {ids[0]} + IdSet(ids[1..]);
    }
  }

  lemma {:induction false} AllDroppedIs(s: Registry, ids: seq<nat>)
    requires NoneQueued(s.waiting, ids) && DistinctIds(ids)
    requires forall k :: 0 <= k < |ids| ==> ids[k] in s.clients
    ensures AllDropped(s, ids) == s.(clients := s.clients - IdSet(ids))
    ensures |AllDropped(s, ids).clients| == |s.clients| - |ids|
    decreases ids
  {
    hide Queued, Without, IdSet;
    HeadAndRest(s.clients, ids);
    if ids != [] {
      assert !Queued(s.waiting, ids[0]);
      WithoutAbsent(s.waiting, ids[0]);
      KeysCount(s.clients, ids[0], s.clients[ids[0]]);
      AllDroppedIs(Dropped(s, ids[0]), ids[1..]);
    }
  }

  lemma ExpiredAreGone(s: Registry, now: nat)
    requires QueueExact(s.clients, s.waiting)
    ensures var gone := ExpiredIds(s.waiting, now);
            && Purged(s, now) == s.(clients := s.clients - IdSet(gone), waiting := StillWaiting(s.waiting, now),
                                    expired := s.expired + |gone|)
            && |Purged(s, now).clients| == |s.clients| - |gone|
  {
    var gone := ExpiredIds(s.waiting, now);
    PurgeDistinct(s.waiting, now);
    forall k | 0 <= k < |gone|
      ensures gone[k] in s.clients && !Queued(StillWaiting(s.waiting, now), gone[k])
    {
      PurgeQueued(s.waiting, now, gone[k]);
    }
    hide Queued, Distinct;
    AllDroppedIs(s.(waiting := StillWaiting(s.waiting, now)), gone);
  }

  lemma PurgedQueue(clients: map<nat, Client>, waiting: seq<Waiting>, now: nat)
    requires QueueExact(clients, waiting)
    ensures QueueExact(clients - IdSet(ExpiredIds(waiting, now)), StillWaiting(waiting, now))
  {
    PurgeDistinct(waiting, now);
    var left := clients - IdSet(ExpiredIds(waiting, now));
    hide Queued, Distinct, StillWaiting, ExpiredIds;
    forall id ensures Queued(StillWaiting(waiting, now), id) <==> Streamless(left, id) {
      PurgeQueued(waiting, now, id);
    }
  }

  lemma PurgeKeeps(s: Registry, now: nat)
    requires Inv(s)
    ensures Inv(Purged(s, now))
  {
    hide QueueExact, Purged, StillWaiting, ExpiredIds;
    ExpiredAreGone(s, now);
    PurgedQueue(s.clients, s.waiting, now);
  }

  // Serving a stream.

  lemma QueueServes(clients: map<nat, Client>, waiting: seq<Waiting>, c: Client)
    requires QueueExact(clients, waiting) && waiting != [] && c.transport.Some?
    ensures QueueExact(clients[waiting[0].client := c], waiting[1..])
  {
    var first, rest := waiting[0], waiting[1..];
    assert waiting == [first] + rest;
    DistinctSplits(first, rest);
    hide Distinct;
    forall id ensures Queued(rest, id) <==> Streamless(clients[first.client := c], id) {
      QueuedSplits(first, rest, id);
    }
  }

  lemma HeadIsStreamless(s: Registry)
    requires Inv(s) && s.waiting != []
    ensures Streamless(s.clients, s.waiting[0].client)
  {
    assert Queued(s.waiting, s.waiting[0].client);
  }

  /** The scan over all clients never finds one, and the head of the queue always names a live client in need. */
  lemma AttachServesTheQueue(s: Registry, stream: nat, now: nat, scanned: Option<nat>)
    requires Inv(s) && Enabled(s, Plug(stream, now, scanned))
    ensures scanned == None
    ensures var t := Purged(s, now);
            t.waiting == [] ==> Attach(s, stream, now, scanned) == t.(streams := t.streams + [stream])
    ensures var t := Purged(s, now);
            t.waiting != [] ==>
              && Streamless(t.clients, t.waiting[0].client)
              && Attach(s, stream, now, scanned)
                 == t.(waiting := t.waiting[1..],
                       clients := t.clients[t.waiting[0].client :=
                                              t.clients[t.waiting[0].client].(transport := Some(ViaUsb(stream)))])
  {
    hide Purged, Distinct, AllSound, UniqueKeys;
    PurgeKeeps(s, now);
    var t := Purged(s, now);
    if t.waiting != [] {
      HeadIsStreamless(t);
    } else {
      assert forall id :: !Queued(t.waiting, id);
    }
  }

  lemma ServingKeeps(s: Registry, stream: nat)
    requires Inv(s) && s.waiting != []
    ensures Inv(Assigned(s, stream, None))
  {
    HeadIsStreamless(s);
    var first := s.waiting[0].client;
    var c := s.clients[first].(transport := Some(ViaUsb(stream)));
    assert Sound(first, s.clients[first], s.served);
    hide QueueExact, AllSound;
    SoundUpdate(s.clients, s.served, first, c);
    QueueServes(s.clients, s.waiting, c);
  }

  lemma AttachKeeps(s: Registry, stream: nat, now: nat, scanned: Option<nat>)
    requires Inv(s) && Enabled(s, Plug(stream, now, scanned))
    ensures Inv(Attach(s, stream, now, scanned))
  {
    hide Purged, Tidy;
    PurgeKeeps(s, now);
    AttachServesTheQueue(s, stream, now, scanned);
    if Purged(s, now).waiting != [] {
      ServingKeeps(Purged(s, now), stream);
    }
  }

  lemma SettleKeeps(s: Registry)
    requires Inv(s) && s.settling > 0
    ensures Inv(Settle(s)) && Settle(s).gauge >= 0
  {
  }

  lemma StepKeeps(s: Registry, op: Op)
    requires Inv(s) && Enabled(s, op)
    ensures Inv(Apply(s, op))
  {
    hide Inv, Register, Remove, SetMode, Attach, MarkLost, TakeBroadcast;
    match op
    case Join(r, at, replaced) => RegisterKeeps(s, r, at, replaced);
    case Leave(id) => RemoveKeeps(s, id);
    case Decrement => SettleKeeps(s);
    case Tune(id, mode, rate, codec) => TuningKeeps(s, id, mode, rate, codec);
    case Plug(stream, at, scanned) => AttachKeeps(s, stream, at, scanned);
    case Lose(id, at) => LosingKeeps(s, id, at);
    case Broadcast => BroadcastKeeps(s);
  }
}

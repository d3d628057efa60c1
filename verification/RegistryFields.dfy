/** What the locked sections do to the clients, said on the clients' own fields. */
module RegistryFields {
  import opened Words
  import opened RegistryModel
  import opened RegistryInvariants

  const MINUTE_NS := 60_000_000_000

  // Who is thrown out by a registration.

  predicate IsNewKey(clients: map<nat, Client>, key: string) {
    forall id :: id in clients ==> clients[id].key != key
  }

  /** The device behind a new key: for WiFi the same name at the same address, for USB whoever holds a stream. */
  predicate LooksTheSame(c: Client, r: Request) {
    && c.transport.Some?
    && match r.kind
       case Usb => c.transport.value.ViaUsb?
       case Wifi(ip, _) => c.name == r.name && c.transport.value.ViaWifi? && c.transport.value.ip == ip
  }

  predicate GivesWay(clients: map<nat, Client>, r: Request, id: nat) {
    && id in clients
    && (clients[id].key == r.key || (IsNewKey(clients, r.key) && LooksTheSame(clients[id], r)))
  }

  lemma GivesWayExactly(s: Registry, r: Request, id: nat)
    ensures Replaceable(s, r, id) <==> GivesWay(s.clients, r, id)
  {
    if KeyTaken(s, r.key) {
      var other :| other in s.clients && s.clients[other].key == r.key;
    }
  }

  lemma ReplacedGivesWay(s: Registry, r: Request, replaced: Option<nat>)
    requires Chosen(s, r, replaced)
    ensures replaced.Some? ==> GivesWay(s.clients, r, replaced.value)
    ensures replaced.None? ==> forall id :: !GivesWay(s.clients, r, id)
  {
    hide Replaceable, GivesWay;
    forall id ensures Replaceable(s, r, id) <==> GivesWay(s.clients, r, id) {
      GivesWayExactly(s, r, id);
    }
  }

  /** Whoever left in the step. */
  function Gone(s: Registry, t: Registry): set<nat> {
    s.clients.Keys - t.clients.Keys
  }

  /** The client a request asks for: over WiFi it has its transport at once, over USB when a stream lay queued. */
  function AsAsked(r: Request, streams: seq<nat>): Client {
    Client(
      id := r.id, name := r.name, key := r.key,
      plane := r.plane, codec := r.codec, mode := r.mode, sampleRate := r.sampleRate,
      firstPacket := true, modeSync := false, prefersUsb := r.kind.Usb?,
      transport := match r.kind
                   case Wifi(ip, port) => Some(ViaWifi(ip, port))
                   case Usb => if streams == [] then None else Some(ViaUsb(streams[0])))
  }

  lemma JoinedIs(s: Registry, r: Request, now: nat)
    ensures var t := Joined(s, r, now);
            && t.clients == s.clients[r.id := AsAsked(r, s.streams)]
            && t.streams == if r.kind.Usb? && s.streams != [] then s.streams[1..] else s.streams
  {
  }

  lemma VacatedIs(s: Registry, replaced: Option<nat>)
    ensures var t := Vacated(s, replaced);
            && t.clients == s.clients - (if replaced.Some? then {replaced.value} else {})
            && t.streams == s.streams
  {
    hide Without;
    assert s.clients - {} == s.clients;
  }

  lemma JoinedClients(s: Registry, r: Request, now: nat, replaced: Option<nat>)
    requires Register(s, r, now, replaced).1
    ensures var t := Register(s, r, now, replaced).0;
            var kept := s.clients - (if replaced.Some? then {replaced.value} else {});
            && t.clients == kept[r.id := AsAsked(r, s.streams)]
            && t.streams == if r.kind.Usb? && s.streams != [] then s.streams[1..] else s.streams
  {
    VacatedIs(s, replaced);
    JoinedIs(Vacated(s, replaced), r, now);
    hide Vacated, Joined, AsAsked;
  }

  lemma Swapped(m: map<nat, Client>, n: map<nat, Client>, out: set<nat>, id: nat, c: Client)
    requires id !in m && out <= m.Keys && n == (m - out)[id := c]
    ensures m.Keys - n.Keys == out && n.Keys == m.Keys - out + {id} && n[id] == c
    ensures forall other :: other in n && other != id ==> other in m && n[other] == m[other]
  {
  }

  /**
   * An accepted registration throws out one client that gives way to it, or nobody when there is none. The others
   * keep every field, and the new client is as the request asks.
   */
  lemma JoinExactly(s: Registry, r: Request, now: nat, replaced: Option<nat>)
    requires Enabled(s, Join(r, now, replaced)) && Register(s, r, now, replaced).1
    ensures var t := Register(s, r, now, replaced).0;
            && t.clients.Keys == s.clients.Keys - Gone(s, t) + {r.id}
            && (forall id :: id in Gone(s, t) ==> GivesWay(s.clients, r, id))
            && (Gone(s, t) == {} <==> forall id :: !GivesWay(s.clients, r, id))
            && |Gone(s, t)| <= 1
            && (forall id :: id in t.clients && id != r.id ==> id in s.clients && t.clients[id] == s.clients[id])
            && t.clients[r.id] == AsAsked(r, s.streams)
            && t.streams == if r.kind.Usb? && s.streams != [] then s.streams[1..] else s.streams
  {
    ReplacedGivesWay(s, r, replaced);
    JoinedClients(s, r, now, replaced);
    assert r.id !in s.clients;
    var out := if replaced.Some? then {replaced.value} else {};
    assert out <= s.clients.Keys by {
      hide Enabled, Register, IsNewKey, LooksTheSame;
    }
    hide Enabled, Register, AsAsked, GivesWay;
    Swapped(s.clients, Register(s, r, now, replaced).0.clients, out, r.id, AsAsked(r, s.streams));
  }

  /** It is refused exactly when four clients are registered and none of them gives way, and then changes nothing. */
  lemma RefusedExactly(s: Registry, r: Request, now: nat, replaced: Option<nat>)
    requires Inv(s) && Enabled(s, Join(r, now, replaced))
    ensures !Register(s, r, now, replaced).1 <==> |s.clients| == 4 && forall id :: !GivesWay(s.clients, r, id)
    ensures !Register(s, r, now, replaced).1 ==> Register(s, r, now, replaced).0 == s
  {
    ReplacedGivesWay(s, r, replaced);
    RegisterKeeps(s, r, now, replaced);
    assert |s.clients| <= 4;
    hide Inv, Enabled, GivesWay, Joined, Dropped;
  }

  /** Two phones of one name at two addresses stay apart: a WiFi registration leaves alone whoever has another key
      and is not at its address under its name. */
  lemma WifiKeepsTheOthers(s: Registry, r: Request, now: nat, replaced: Option<nat>, id: nat)
    requires Inv(s) && Enabled(s, Join(r, now, replaced)) && r.kind.Wifi? && id in s.clients
    requires s.clients[id].key != r.key
    requires s.clients[id].name != r.name || s.clients[id].transport.None?
          || s.clients[id].transport.value.ViaUsb? || s.clients[id].transport.value.ip != r.kind.ip
    ensures id in Register(s, r, now, replaced).0.clients
    ensures Register(s, r, now, replaced).0.clients[id] == s.clients[id]
  {
    assert !GivesWay(s.clients, r, id);
    hide GivesWay;
    if Register(s, r, now, replaced).1 {
      JoinExactly(s, r, now, replaced);
      hide Inv, Enabled, Register;
    } else {
      RegisterKeeps(s, r, now, replaced);
      hide Inv, Enabled;
    }
  }

  // What a step may change, and who leaves.

  /**
   * While a client stays, no step changes who it is. Only a mode change of its own touches mode, rate and codec. Only
   * a stream attached to a USB client without one, and the loss of its own transport, touch the transport.
   */
  lemma StepTouches(s: Registry, op: Op, id: nat)
    requires Inv(s) && Enabled(s, op) && id in s.clients && id in Apply(s, op).clients
    ensures var c, d := s.clients[id], Apply(s, op).clients[id];
            && d.id == c.id && d.name == c.name && d.key == c.key
            && d.prefersUsb == c.prefersUsb && d.plane == c.plane
            && (d.mode != c.mode || d.sampleRate != c.sampleRate || d.codec != c.codec ==> op.Tune? && op.id == id)
            && (d.transport != c.transport ==>
                  || (op.Plug? && c.prefersUsb && c.transport == None && d.transport == Some(ViaUsb(op.stream)))
                  || (op.Lose? && op.id == id && d.transport == None))
  {
    hide Inv, Register, Attach, SetMode, MarkLost, TakeBroadcast, Without, Chosen, Scanned, Negotiated, Purged;
    match op
    case Join(r, at, replaced) =>
      JoinTouches(s, r, at, replaced, id);
    case Plug(stream, at, scanned) =>
      PlugTouches(s, stream, at, scanned, id);
    case Tune(other, mode, rate, codec) =>
      TuneTouches(s, other, mode, rate, codec, id);
    case Lose(other, at) =>
      LoseTouches(s, other, at, id);
    case Broadcast =>
      BroadcastTouches(s, id);
    case _ =>
  }

  lemma TuneTouches(s: Registry, other: nat, mode: AudioMode, rate: Option<u32>, codec: Option<CodecSelection>, id: nat)
    requires id in s.clients
    ensures var t := SetMode(s, other, mode, rate, codec);
            && t.clients.Keys == s.clients.Keys
            && var c, d := s.clients[id], t.clients[id];
               if id != other then d == c
               else d == c.(mode := d.mode, sampleRate := d.sampleRate, codec := d.codec, firstPacket := d.firstPacket,
                            modeSync := d.modeSync)
  {
  }

  /** The client that lost its transport has none, and is queued when it came over USB. */
  lemma LoseTouches(s: Registry, other: nat, now: nat, id: nat)
    requires id in s.clients
    ensures var t := MarkLost(s, other, now);
            && t.clients.Keys == s.clients.Keys
            && t.clients[id] == if id == other then s.clients[id].(transport := None) else s.clients[id]
  {
  }

  lemma BroadcastTouches(s: Registry, id: nat)
    requires id in s.clients
    ensures var t := TakeBroadcast(s);
            && t.clients.Keys == s.clients.Keys
            && var c, d := s.clients[id], t.clients[id];
               d == c.(firstPacket := d.firstPacket, modeSync := d.modeSync)
  {
  }

  lemma JoinTouches(s: Registry, r: Request, now: nat, replaced: Option<nat>, id: nat)
    requires r.id !in s.clients && id in s.clients && id in Register(s, r, now, replaced).0.clients
    ensures Register(s, r, now, replaced).0.clients[id] == s.clients[id]
  {
    hide Without;
  }

  lemma PlugTouches(s: Registry, stream: nat, now: nat, scanned: Option<nat>, id: nat)
    requires Inv(s) && Enabled(s, Plug(stream, now, scanned))
    requires id in s.clients && id in Attach(s, stream, now, scanned).clients
    ensures var c, d := s.clients[id], Attach(s, stream, now, scanned).clients[id];
            d == c || (c.prefersUsb && c.transport == None && d == c.(transport := Some(ViaUsb(stream))))
  {
    ExpiredAreGone(s, now);
    AttachServesTheQueue(s, stream, now, scanned);
    var t := Purged(s, now);
    PurgeKeeps(s, now);
    if t.waiting != [] {
      HeadIsStreamless(t);
    }
    hide Purged, Attach, Inv, Enabled, IdSet;
  }

  /** The entry is older than a minute. */
  predicate Stale(waiting: seq<Waiting>, now: nat, id: nat) {
    exists k :: 0 <= k < |waiting| && waiting[k].client == id && now > waiting[k].since + MINUTE_NS
  }

  lemma StaleExactly(waiting: seq<Waiting>, now: nat, id: nat)
    ensures id in ExpiredIds(waiting, now) <==> Stale(waiting, now, id)
  {
    ExpiresExactly(waiting, now, id);
  }

  /** A client leaves exactly when it is removed, when a registration replaces it, and when a stream is attached
      while it has been waiting for one for more than a minute. */
  lemma LeavesExactly(s: Registry, op: Op, id: nat)
    requires Inv(s) && Enabled(s, op) && id in s.clients
    ensures id !in Apply(s, op).clients <==>
              || (op.Leave? && op.id == id)
              || (op.Join? && op.replaced == Some(id))
              || (op.Plug? && Stale(s.waiting, op.at, id))
  {
    hide Inv, Register, Attach, SetMode, MarkLost, TakeBroadcast, Without, Chosen, Scanned, Negotiated, Purged;
    match op
    case Join(r, at, replaced) =>
      RegisterKeeps(s, r, at, replaced);
      if Register(s, r, at, replaced).1 {
        JoinedClients(s, r, at, replaced);
      } else {
        RegisterRefuses(s, r, at, replaced);
      }
    case Plug(stream, at, scanned) =>
      PlugKeys(s, stream, at, scanned, id);
    case Tune(other, mode, rate, codec) =>
      TuneTouches(s, other, mode, rate, codec, id);
    case Lose(other, at) =>
      LoseTouches(s, other, at, id);
    case Broadcast =>
      BroadcastTouches(s, id);
    case _ =>
  }

  lemma RegisterRefuses(s: Registry, r: Request, now: nat, replaced: Option<nat>)
    requires !Register(s, r, now, replaced).1
    ensures replaced.None? ==> Register(s, r, now, replaced).0 == s
  {
  }

  lemma PlugKeys(s: Registry, stream: nat, now: nat, scanned: Option<nat>, id: nat)
    requires Inv(s) && Enabled(s, Plug(stream, now, scanned))
    ensures id in Attach(s, stream, now, scanned).clients <==> id in s.clients && !Stale(s.waiting, now, id)
  {
    StaleExactly(s.waiting, now, id);
    ExpiredAreGone(s, now);
    AttachServesTheQueue(s, stream, now, scanned);
    hide Purged, Attach, Inv, Enabled, Stale, ExpiredIds, StillWaiting;
  }

  /** A snapshot says of its client what the registry holds. */
  lemma SnapshotExactly(s: Registry, id: nat)
    requires Inv(s)
    ensures id in Snapshots(s) <==> id in s.clients && s.clients[id].transport.Some?
    ensures id in Snapshots(s) ==>
              var c, p := s.clients[id], Snapshots(s)[id];
              && p.id == id && p.name == c.name && p.plane == c.plane && p.codec == c.codec && p.mode == c.mode
              && p.sampleRate == c.sampleRate && c.transport == Some(p.transport)
              && p.firstPacket == c.firstPacket && p.modeChanged == c.modeSync
  {
  }
}

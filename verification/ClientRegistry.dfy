/** The registry object: every method is one locked section, plus the gauge update that follows it. */
module SessionRegistry {
  import opened Words
  import opened RegistryModel
  import opened RegistryInvariants

  class ClientRegistry {
    var clients: map<nat, Client>
    var pendingUsbClients: seq<Waiting>
    var pendingUsbStreams: seq<nat>
    var activeSessions: int
    ghost var settling: nat
    ghost var expired: nat
    ghost var served: set<nat>

    ghost function State(): Registry
      reads this
    {
      Registry(clients, pendingUsbClients, pendingUsbStreams, activeSessions, settling, expired, served)
    }

    ghost predicate Valid()
      reads this
    {
      Inv(State())
    }

    constructor ()
      ensures Valid() && State() == EMPTY
    {
      clients, pendingUsbClients, pendingUsbStreams, activeSessions := map[], [], [], 0;
      settling, expired, served := 0, 0, {};
    }

    /** Some client that the request replaces, if there is one. */
    method FindReplaceable(r: Request) returns (found: Option<nat>)
      ensures Chosen(State(), r, found)
    {
      if id :| id in clients && clients[id].key == r.key {
        found := Some(id);
      } else if r.kind.Usb? {
        if id :| id in clients && clients[id].transport.Some? && clients[id].transport.value.ViaUsb? {
          found := Some(id);
        } else {
          found := None;
        }
      } else if id :| id in clients && clients[id].name == r.name && clients[id].transport.Some?
                      && clients[id].transport.value.ViaWifi? && clients[id].transport.value.ip == r.kind.ip {
        found := Some(id);
      } else {
        found := None;
      }
    }

    method RemoveClientLocked(id: nat) returns (removed: Option<Client>)
      modifies this`clients, this`pendingUsbClients
      ensures State() == Dropped(old(State()), id)
      ensures removed == if id in old(clients) then Some(old(clients[id])) else None
    {
      removed := if id in clients then Some(clients[id]) else None;
      pendingUsbClients := Without(pendingUsbClients, id);
      clients := clients - {id};
    }

    method DecSessions()
      requires settling > 0
      modifies this`activeSessions, this`settling
      ensures State() == Settle(old(State()))
    {
      activeSessions := activeSessions - 1;
      settling := settling - 1;
    }

    method InsertClient(r: Request, now: nat)
      modifies this`clients, this`pendingUsbClients, this`pendingUsbStreams, this`activeSessions
      ensures State() == Joined(old(State()), r, now)
    {
      var client := NewClient(r);
      match r.kind {
        case Wifi(ip, port) =>
          client := client.(transport := Some(ViaWifi(ip, port)));
        case Usb =>
          client := client.(prefersUsb := true);
          if pendingUsbStreams != [] {
            client := client.(transport := Some(ViaUsb(pendingUsbStreams[0])));
            pendingUsbStreams := pendingUsbStreams[1..];
          } else {
            pendingUsbClients := pendingUsbClients + [Waiting(r.id, now)];
          }
      }
      activeSessions := activeSessions + 1;
      clients := clients[r.id := client];
    }

    method RegisterClient(r: Request, now: nat) returns (accepted: bool, ghost replaced: Option<nat>)
      requires Valid() && Negotiated(r) && r.id !in clients && r.id !in served
      modifies this
      ensures Valid()
      ensures Enabled(old(State()), Join(r, now, replaced))
      ensures accepted == Register(old(State()), r, now, replaced).1
      ensures var t := Register(old(State()), r, now, replaced).0;
              State() == if accepted && replaced.Some? then Settle(t) else t
    {
      hide Inv, Chosen, Negotiated, Joined, Dropped;
      var existing := FindReplaceable(r);
      replaced := existing;
      RegisterKeeps(State(), r, now, replaced);
      if existing.Some? {
        var _ := RemoveClientLocked(existing.value);
      }
      if |clients| >= MAX_CLIENTS {
        return false, replaced;
      }
      InsertClient(r, now);
      accepted := true;
      if existing.Some? {
        settling := settling + 1;
        SettleKeeps(State());
        DecSessions();
      }
    }

    method RemoveClient(id: nat) returns (name: Option<string>)
      requires Valid()
      modifies this
      ensures Valid()
      ensures name == if id in old(clients) then Some(old(clients[id].name)) else None
      ensures State() == if name.Some? then Settle(Remove(old(State()), id)) else Remove(old(State()), id)
    {
      hide Inv, Without;
      RemoveKeeps(State(), id);
      var removed := RemoveClientLocked(id);
      if removed.None? {
        return None;
      }
      settling := settling + 1;
      SettleKeeps(State());
      DecSessions();
      name := Some(removed.value.name);
    }

    method SetClientMode(id: nat, mode: AudioMode, rate: Option<u32>, codec: Option<CodecSelection>)
      requires Valid()
      modifies this`clients
      ensures Valid() && State() == SetMode(old(State()), id, mode, rate, codec)
    {
      hide Inv;
      TuningKeeps(State(), id, mode, rate, codec);
      if id !in clients {
        return;
      }
      var client := clients[id].(mode := mode);
      if rate.Some? {
        client := client.(sampleRate := rate.value);
      }
      if codec.Some? {
        client := client.(codec := ResolveCodec(codec.value, client.plane), firstPacket := true);
      }
      client := client.(modeSync := true);
      clients := clients[id := client];
    }

    /** Splits the queue into those who may go on waiting and those who waited too long. */
    method SplitExpired(now: nat) returns (kept: seq<Waiting>, gone: seq<nat>)
      ensures kept == StillWaiting(pendingUsbClients, now) && gone == ExpiredIds(pendingUsbClients, now)
    {
      kept, gone := [], [];
      for k := 0 to |pendingUsbClients|
        invariant kept + StillWaiting(pendingUsbClients[k..], now) == StillWaiting(pendingUsbClients, now)
        invariant gone + ExpiredIds(pendingUsbClients[k..], now) == ExpiredIds(pendingUsbClients, now)
      {
        var entry := pendingUsbClients[k];
        assert pendingUsbClients[k..] == [entry] + pendingUsbClients[k + 1..];
        if TimedOut(entry, now) {
          gone := gone + [entry.client];
        } else {
          kept := kept + [entry];
        }
      }
    }

    method PurgeExpired(now: nat)
      modifies this`clients, this`pendingUsbClients, this`expired
      ensures State() == Purged(old(State()), now)
    {
      var kept, gone := SplitExpired(now);
      pendingUsbClients := kept;
      ghost var start := State();
      hide Dropped, StillWaiting, ExpiredIds;
      for k := 0 to |gone|
        invariant AllDropped(State(), gone[k..]) == AllDropped(start, gone)
        invariant expired == old(expired)
      {
        var _ := RemoveClientLocked(gone[k]);
        assert gone[k..][1..] == gone[k + 1..];
      }
      expired := expired + |gone|;
    }

    /** Stores the stream with a client, if that client still exists. */
    method GiveStream(id: nat, stream: nat)
      modifies this`clients
      ensures State() == Plugged(old(State()), id, stream)
    {
      if id in clients {
        clients := clients[id := clients[id].(transport := Some(ViaUsb(stream)))];
      }
    }

    method AttachUsbStream(stream: nat, now: nat) returns (ghost scanned: Option<nat>)
      requires Valid()
      modifies this
      ensures Valid() && Enabled(old(State()), Plug(stream, now, scanned))
      ensures State() == Attach(old(State()), stream, now, scanned)
    {
      hide Inv, Purged, Plugged;
      PurgeExpired(now);
      scanned := None;
      if pendingUsbClients != [] {
        var first := pendingUsbClients[0].client;
        pendingUsbClients := pendingUsbClients[1..];
        GiveStream(first, stream);
      } else if id :| id in clients && clients[id].prefersUsb && clients[id].transport.None? {
        scanned := Some(id);
        GiveStream(id, stream);
      } else {
        pendingUsbStreams := pendingUsbStreams + [stream];
      }
      AttachKeeps(old(State()), stream, now, scanned);
    }

    method MarkUsbTransportLost(id: nat, now: nat) returns (name: Option<string>)
      requires Valid()
      modifies this
      ensures Valid() && State() == MarkLost(old(State()), id, now)
      ensures name == if id in old(clients) && old(clients[id].prefersUsb) then Some(old(clients[id].name)) else None
    {
      hide Inv;
      LosingKeeps(State(), id, now);
      if id !in clients {
        return None;
      }
      var client := clients[id];
      clients := clients[id := client.(transport := None)];
      if !client.prefersUsb {
        return None;
      }
      if !Queued(pendingUsbClients, id) {
        pendingUsbClients := pendingUsbClients + [Waiting(id, now)];
      }
      name := Some(client.name);
    }

    /** Takes one more client: its snapshot joins the list when it has a transport. */
    method TakeClient(id: nat, out: seq<Snapshot>, ghost s: Registry, ghost todo: set<nat>)
      returns (more: seq<Snapshot>)
      requires AllSound(s.clients, s.served) && id in s.clients && id !in todo && todo <= s.clients.Keys
      requires clients == PartlyTaken(s.clients, s.clients.Keys - (todo + {id}))
      requires Lists(out, Snapshots(s), Reachable(s) - (todo + {id}))
      modifies this`clients
      ensures clients == PartlyTaken(s.clients, s.clients.Keys - todo)
      ensures Lists(more, Snapshots(s), Reachable(s) - todo)
    {
      TakeOne(s, todo, id);
      var client := clients[id];
      assert client.transport.Some? == (id in Reachable(s));
      hide Lists, PartlyTaken, Snapshots, AllSound, Reachable;
      more := out;
      if client.transport.Some? {
        ListsOneMore(out, Snapshots(s), Reachable(s) - (todo + {id}), SnapshotOf(client));
        more := out + [SnapshotOf(client)];
        clients := clients[id := client.(firstPacket := false, modeSync := false)];
      } else {
        assert clients == clients[id := client];
      }
    }

    method TakeEveryClient() returns (out: seq<Snapshot>)
      requires AllSound(clients, served)
      modifies this`clients
      ensures clients == TakeBroadcast(old(State())).clients
      ensures Lists(out, Snapshots(old(State())), Reachable(old(State())))
    {
      ghost var s := State();
      TakingStarts(s);
      TakingEnds(s);
      out := [];
      hide Lists, PartlyTaken, Snapshots, AllSound, Reachable, TakeBroadcast;
      var todo := clients.Keys;
      while todo != {}
        invariant todo <= s.clients.Keys
        invariant clients == PartlyTaken(s.clients, s.clients.Keys - todo)
        invariant Lists(out, Snapshots(s), Reachable(s) - todo)
        decreases |todo|
      {
        var id :| id in todo;
        var rest := todo - {id};
        assert todo == rest + {id};
        out := TakeClient(id, out, s, rest);
        todo := rest;
      }
    }

    /** Hands out the reachable clients, in whatever order the map is walked, and clears their flags. */
    method TakeBroadcastClients() returns (out: seq<Snapshot>)
      requires Valid()
      modifies this`clients, this`served
      ensures Valid() && State() == TakeBroadcast(old(State()))
      ensures Lists(out, Snapshots(old(State())), Reachable(old(State())))
    {
      BroadcastKeeps(State());
      assert AllSound(clients, served);
      hide Inv, Lists, Snapshots, Reachable, AllSound;
      ghost var reached := Reachable(State());
      out := TakeEveryClient();
      served := served + reached;
    }
  }

  /** The list names each of the given clients once, with its own snapshot. */
  predicate Lists(out: seq<Snapshot>, snapshots: map<nat, Snapshot>, ids: set<nat>) {
    && (forall j, k :: 0 <= j < k < |out| ==> out[j].id != out[k].id)
    && (forall k :: 0 <= k < |out| ==> out[k].id in ids && out[k].id in snapshots && out[k] == snapshots[out[k].id])
    && (forall id :: id in ids ==> exists k :: 0 <= k < |out| && out[k].id == id)
  }

  lemma ListsOneMore(out: seq<Snapshot>, snapshots: map<nat, Snapshot>, ids: set<nat>, snapshot: Snapshot)
    requires Lists(out, snapshots, ids) && snapshot.id !in ids
    requires snapshot.id in snapshots && snapshots[snapshot.id] == snapshot
    ensures Lists(out + [snapshot], snapshots, ids + {snapshot.id})
  {
    var more := out + [snapshot];
    assert more[|out|].id == snapshot.id;
    forall id | id in ids ensures exists k :: 0 <= k < |more| && more[k].id == id {
      var k :| 0 <= k < |out| && out[k].id == id;
      assert more[k].id == id;
    }
  }

  lemma TakingStarts(s: Registry)
    ensures PartlyTaken(s.clients, s.clients.Keys - s.clients.Keys) == s.clients
    ensures Lists([], Snapshots(s), Reachable(s) - s.clients.Keys)
  {
    assert Reachable(s) - s.clients.Keys == {};
  }

  lemma TakingEnds(s: Registry)
    ensures PartlyTaken(s.clients, s.clients.Keys - {}) == TakeBroadcast(s).clients
    ensures Reachable(s) - {} == Reachable(s)
  {
  }

  lemma TakeOne(s: Registry, todo: set<nat>, id: nat)
    requires AllSound(s.clients, s.served) && id in s.clients && id !in todo && todo <= s.clients.Keys
    ensures var before := PartlyTaken(s.clients, s.clients.Keys - (todo + {id}));
            && before[id] == s.clients[id]
            && PartlyTaken(s.clients, s.clients.Keys - todo) == before[id := Taken(s.clients[id])]
    ensures id in Reachable(s) ==>
              && Reachable(s) - todo == Reachable(s) - (todo + {id}) + {id}
              && id in Snapshots(s) && Snapshots(s)[id] == SnapshotOf(s.clients[id]) && Snapshots(s)[id].id == id
    ensures id !in Reachable(s) ==> Reachable(s) - todo == Reachable(s) - (todo + {id})
  {
  }

  /** The client map once the given clients were taken. */
  function PartlyTaken(clients: map<nat, Client>, done: set<nat>): map<nat, Client> {
    map id | id in clients :: if id in done then Taken(clients[id]) else clients[id]
  }
}

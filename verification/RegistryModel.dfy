/** The registry of streaming clients: each locked section of the server is one step. */
module RegistryModel {
  import opened Words
  import DataPlane

  const MAX_CLIENTS := 4
  const USB_PENDING_TIMEOUT_NS := 60_000_000_000

  datatype CodecSelection = Pcm16 | Opus | Pcm24
  datatype AudioMode = UltraLowLatency | LowLatency | Balanced | HighQuality
  datatype TransportKind = Wifi(ip: nat, port: nat) | Usb
  datatype Transport = ViaWifi(ip: nat, port: nat) | ViaUsb(stream: nat)

  datatype Client = Client(
    id: nat,
    name: string,
    key: string,
    transport: Option<Transport>,
    prefersUsb: bool,
    plane: DataPlane.Format,
    codec: CodecSelection,
    mode: AudioMode,
    sampleRate: u32,
    firstPacket: bool,
    modeSync: bool)

  datatype Waiting = Waiting(client: nat, since: nat)

  datatype Request = Request(
    id: nat,
    name: string,
    key: string,
    kind: TransportKind,
    plane: DataPlane.Format,
    codec: CodecSelection,
    mode: AudioMode,
    sampleRate: u32)

  /**
   * gauge is the session counter kept outside the lock; settling counts removals whose decrement of it is
   * still to come. expired and served are history: clients dropped by the waiting-time limit, and the
   * identifiers that were handed to the broadcaster at least once.
   */
  datatype Registry = Registry(
    clients: map<nat, Client>,
    waiting: seq<Waiting>,
    streams: seq<nat>,
    gauge: int,
    settling: nat,
    expired: nat,
    served: set<nat>)

  const EMPTY := Registry(map[], [], [], 0, 0, 0, {})

  // Negotiation.

  datatype Capabilities = Capabilities(opus: bool, opusExperimental: bool, hiresPcm24: bool)
  datatype Path = Path(plane: DataPlane.Format, codec: CodecSelection)

  function Negotiate(v2Session: bool, plane: DataPlane.Format, codec: CodecSelection, caps: Capabilities): Path {
    if !v2Session then Path(DataPlane.LegacyLas1, Pcm16)
    else
      var carries := plane.V2Header?;
      Path(plane,
           if codec == Opus && carries && (caps.opus || caps.opusExperimental) then Opus
           else if codec == Pcm24 && carries && caps.hiresPcm24 then Pcm24
           else Pcm16)
  }

  function ResolveCodec(requested: CodecSelection, plane: DataPlane.Format): CodecSelection {
    match (requested, plane)
    case (Opus, V2Header) => Opus
    case (Opus, LegacyLas1) => Pcm16
    case (Pcm16, _) => Pcm16
    case (Pcm24, V2Header) => Pcm24
    case (Pcm24, LegacyLas1) => Pcm16
  }

  // The queue of USB clients that wait for a forwarded stream.

  predicate Queued(waiting: seq<Waiting>, id: nat) {
    exists k :: 0 <= k < |waiting| && waiting[k].client == id
  }

  predicate Distinct(waiting: seq<Waiting>) {
    forall j, k :: 0 <= j < k < |waiting| ==> waiting[j].client != waiting[k].client
  }

  function Without(waiting: seq<Waiting>, id: nat): seq<Waiting> {
    if waiting == [] then []
    else if waiting[0].client == id then Without(waiting[1..], id)
    else [waiting[0]] + Without(waiting[1..], id)
  }

  predicate TimedOut(entry: Waiting, now: nat) {
    now - entry.since > USB_PENDING_TIMEOUT_NS
  }

  function StillWaiting(waiting: seq<Waiting>, now: nat): seq<Waiting> {
    if waiting == [] then []
    else if TimedOut(waiting[0], now) then StillWaiting(waiting[1..], now)
    else [waiting[0]] + StillWaiting(waiting[1..], now)
  }

  function ExpiredIds(waiting: seq<Waiting>, now: nat): seq<nat> {
    if waiting == [] then []
    else if TimedOut(waiting[0], now) then [waiting[0].client] + ExpiredIds(waiting[1..], now)
    else ExpiredIds(waiting[1..], now)
  }

  // Registration.

  predicate SameKey(s: Registry, key: string, id: nat) {
    id in s.clients && s.clients[id].key == key
  }

  predicate KeyTaken(s: Registry, key: string) {
    exists id :: id in s.clients && s.clients[id].key == key
  }

  predicate OnUsb(s: Registry, id: nat) {
    id in s.clients && s.clients[id].transport.Some? && s.clients[id].transport.value.ViaUsb?
  }

  predicate SameDevice(s: Registry, name: string, ip: nat, id: nat) {
    && id in s.clients
    && s.clients[id].name == name
    && s.clients[id].transport.Some? && s.clients[id].transport.value.ViaWifi?
    && s.clients[id].transport.value.ip == ip
  }

  /** The clients a registration may take the place of. */
  predicate Replaceable(s: Registry, r: Request, id: nat) {
    if KeyTaken(s, r.key) then SameKey(s, r.key, id)
    else match r.kind
         case Usb => OnUsb(s, id)
         case Wifi(ip, _) => SameDevice(s, r.name, ip, id)
  }

  /** The search stops at some match, in whatever order the hash map is walked. */
  ghost predicate Chosen(s: Registry, r: Request, replaced: Option<nat>) {
    match replaced
    case Some(id) => Replaceable(s, r, id)
    case None => forall id :: !Replaceable(s, r, id)
  }

  function Dropped(s: Registry, id: nat): Registry {
    s.(waiting := Without(s.waiting, id), clients := s.clients - {id})
  }

  function NewClient(r: Request): Client {
    Client(r.id, r.name, r.key, None, false, r.plane, r.codec, r.mode, r.sampleRate, true, false)
  }

  /** The new client takes a queued stream, or queues for one, or needs none. */
  function Joined(s: Registry, r: Request, now: nat): Registry {
    var c := NewClient(r);
    var t := s.(gauge := s.gauge + 1);
    match r.kind
    case Wifi(ip, port) => t.(clients := t.clients[r.id := c.(transport := Some(ViaWifi(ip, port)))])
    case Usb =>
      var u := c.(prefersUsb := true);
      if t.streams != [] then
        t.(clients := t.clients[r.id := u.(transport := Some(ViaUsb(t.streams[0])))], streams := t.streams[1..])
      else
        t.(clients := t.clients[r.id := u], waiting := t.waiting + [Waiting(r.id, now)])
  }

  function Vacated(s: Registry, replaced: Option<nat>): Registry {
    match replaced
    case None => s
    case Some(id) => Dropped(s, id)
  }

  /** The locked part of a registration; the flag says whether it was accepted. */
  function Register(s: Registry, r: Request, now: nat, replaced: Option<nat>): (Registry, bool) {
    var t := Vacated(s, replaced);
    if |t.clients| >= MAX_CLIENTS then (t, false)
    else (Joined(t, r, now).(settling := t.settling + if replaced.Some? then 1 else 0), true)
  }

  function Remove(s: Registry, id: nat): Registry {
    var t := Dropped(s, id);
    if id in s.clients then t.(settling := t.settling + 1) else t
  }

  /** The decrement that follows a removal, after the lock was let go. */
  function Settle(s: Registry): Registry
    requires s.settling > 0
  {
    s.(settling := s.settling - 1, gauge := s.gauge - 1)
  }

  // Mode changes.

  function Retuned(c: Client, mode: AudioMode, rate: Option<u32>, codec: Option<CodecSelection>): Client {
    var tuned := c.(mode := mode, sampleRate := if rate.Some? then rate.value else c.sampleRate, modeSync := true);
    match codec
    case None => tuned
    case Some(requested) => tuned.(codec := ResolveCodec(requested, c.plane), firstPacket := true)
  }

  function SetMode(s: Registry, id: nat, mode: AudioMode, rate: Option<u32>, codec: Option<CodecSelection>): Registry {
    if id !in s.clients then s
    else s.(clients := s.clients[id := Retuned(s.clients[id], mode, rate, codec)])
  }

  // Forwarded USB streams.

  function AllDropped(s: Registry, ids: seq<nat>): Registry
    decreases ids
  {
    if ids == [] then s else AllDropped(Dropped(s, ids[0]), ids[1..])
  }

  function Purged(s: Registry, now: nat): Registry {
    var ids := ExpiredIds(s.waiting, now);
    AllDropped(s.(waiting := StillWaiting(s.waiting, now)), ids).(expired := s.expired + |ids|)
  }

  function Plugged(s: Registry, id: nat, stream: nat): Registry {
    if id !in s.clients then s
    else s.(clients := s.clients[id := s.clients[id].(transport := Some(ViaUsb(stream)))])
  }

  /** A USB client without a stream, whether or not it is in the queue. */
  predicate Streamless(clients: map<nat, Client>, id: nat) {
    id in clients && clients[id].prefersUsb && clients[id].transport.None?
  }

  /** Only when nobody is queued are all clients searched for one in need. */
  ghost predicate Scanned(s: Registry, scanned: Option<nat>) {
    match scanned
    case Some(id) => s.waiting == [] && Streamless(s.clients, id)
    case None => s.waiting == [] ==> forall id :: !Streamless(s.clients, id)
  }

  /** What becomes of a stream once the queue was purged: the head of the queue, else any client in need. */
  function Assigned(s: Registry, stream: nat, scanned: Option<nat>): Registry {
    if s.waiting != [] then Plugged(s.(waiting := s.waiting[1..]), s.waiting[0].client, stream)
    else match scanned
         case Some(id) => Plugged(s, id, stream)
         case None => s.(streams := s.streams + [stream])
  }

  function Attach(s: Registry, stream: nat, now: nat, scanned: Option<nat>): Registry {
    Assigned(Purged(s, now), stream, scanned)
  }

  function MarkLost(s: Registry, id: nat, now: nat): Registry {
    if id !in s.clients then s
    else
      var t := s.(clients := s.clients[id := s.clients[id].(transport := None)]);
      if s.clients[id].prefersUsb && !Queued(s.waiting, id) then t.(waiting := t.waiting + [Waiting(id, now)]) else t
  }

  // Handing the clients to the broadcaster.

  datatype Snapshot = Snapshot(id: nat, name: string, plane: DataPlane.Format, codec: CodecSelection, mode: AudioMode,
                               sampleRate: u32, transport: Transport, firstPacket: bool, modeChanged: bool)

  function SnapshotOf(c: Client): Snapshot
    requires c.transport.Some?
  {
    Snapshot(c.id, c.name, c.plane, c.codec, c.mode, c.sampleRate, c.transport.value, c.firstPacket, c.modeSync)
  }

  function Taken(c: Client): Client {
    if c.transport.None? then c else c.(firstPacket := false, modeSync := false)
  }

  function Reachable(s: Registry): set<nat> {
    set id | id in s.clients && s.clients[id].transport.Some?
  }

  function TakeBroadcast(s: Registry): Registry {
    s.(clients := map id | id in s.clients :: Taken(s.clients[id]), served := s.served + Reachable(s))
  }

  /** The snapshots handed out by TakeBroadcast, by client. */
  function Snapshots(s: Registry): map<nat, Snapshot> {
    map id | id in Reachable(s) :: SnapshotOf(s.clients[id])
  }
}

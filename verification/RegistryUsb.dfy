/** USB sessions over runs of the registry: who replaces whom, and streams and clients that miss each other. */
module RegistryUsb {
  import opened Words
  import opened RegistryModel
  import opened RegistryInvariants
  import opened RegistryRuns

  // Who replaces whom.

  /** A registration is turned away exactly when the registry is full and it replaces nobody. */
  lemma RejectedExactly(s: Registry, r: Request, now: nat, replaced: Option<nat>)
    requires Inv(s) && Enabled(s, Join(r, now, replaced))
    ensures !Register(s, r, now, replaced).1 <==>
            |s.clients| == MAX_CLIENTS && forall id :: !Replaceable(s, r, id)
    ensures !Register(s, r, now, replaced).1 ==> Register(s, r, now, replaced).0 == s
  {
    hide Joined, Dropped, Replaceable, Tidy, Negotiated, KeyTaken;
    RegisterKeeps(s, r, now, replaced);
  }

  predicate UsbSession(s: Registry, id: nat) {
    id in s.clients && s.clients[id].prefersUsb
  }

  ghost predicate AtMostOneUsb(s: Registry) {
    forall i, j :: UsbSession(s, i) && UsbSession(s, j) ==> i == j
  }

  lemma UsbIsReplaced(s: Registry, r: Request, now: nat, replaced: Option<nat>, u: nat)
    requires Inv(s) && Enabled(s, Join(r, now, replaced)) && r.kind.Usb? && AtMostOneUsb(s) && UsbSession(s, u)
    ensures replaced == Some(u) <==> s.clients[u].key == r.key || (OnUsb(s, u) && !KeyTaken(s, r.key))
  {
    hide QueueExact, Negotiated;
    assert SameKey(s, r.key, u) == (s.clients[u].key == r.key);
    assert Replaceable(s, r, u) == (s.clients[u].key == r.key || (OnUsb(s, u) && !KeyTaken(s, r.key)));
    if replaced.Some? {
      var v := replaced.value;
      assert Sound(v, s.clients[v], s.served);
      assert !KeyTaken(s, r.key) ==> UsbSession(s, v);
    }
  }

  lemma UsbAfterwards(s: Registry, r: Request, now: nat, replaced: Option<nat>, u: nat)
    requires r.kind.Usb? && r.id !in s.clients && Register(s, r, now, replaced).1
    ensures UsbSession(Register(s, r, now, replaced).0, u) <==> u == r.id || (UsbSession(s, u) && replaced != Some(u))
  {
    hide Without;
  }

  /**
   * A USB registration leaves a single USB session exactly when every earlier one either has the same key, or
   * holds a stream while the key is new.
   */
  lemma SingleUsbExactly(s: Registry, r: Request, now: nat, replaced: Option<nat>)
    requires Inv(s) && Enabled(s, Join(r, now, replaced)) && r.kind.Usb? && AtMostOneUsb(s)
    requires Register(s, r, now, replaced).1
    ensures AtMostOneUsb(Register(s, r, now, replaced).0) <==>
            forall u :: UsbSession(s, u) ==> s.clients[u].key == r.key || (OnUsb(s, u) && !KeyTaken(s, r.key))
  {
    var t := Register(s, r, now, replaced).0;
    assert r.id !in s.clients;
    hide Inv, Register, OnUsb, KeyTaken, Enabled;
    forall u ensures UsbSession(t, u) <==> u == r.id || (UsbSession(s, u) && replaced != Some(u)) {
      UsbAfterwards(s, r, now, replaced, u);
    }
    forall u | UsbSession(s, u)
      ensures u != r.id
      ensures replaced == Some(u) <==> s.clients[u].key == r.key || (OnUsb(s, u) && !KeyTaken(s, r.key))
    {
      UsbIsReplaced(s, r, now, replaced, u);
    }
    assert UsbSession(t, r.id);
  }

  /** A USB registration that is accepted takes the place of every earlier USB session. */
  ghost predicate KeepsOneUsb(s: Registry, op: Op) {
    op.Join? && op.request.kind.Usb? && Register(s, op.request, op.at, op.replaced).1 ==>
      forall u :: UsbSession(s, u) ==>
                    s.clients[u].key == op.request.key || (OnUsb(s, u) && !KeyTaken(s, op.request.key))
  }

  ghost predicate FewerUsb(s: Registry, t: Registry) {
    forall u :: UsbSession(t, u) ==> UsbSession(s, u)
  }

  lemma WifiAddsNone(s: Registry, r: Request, now: nat, replaced: Option<nat>)
    requires r.kind.Wifi?
    ensures FewerUsb(s, Register(s, r, now, replaced).0)
  {
    hide Without;
  }

  lemma PurgeAddsNone(s: Registry, now: nat)
    requires Inv(s)
    ensures FewerUsb(s, Purged(s, now))
  {
    ExpiredAreGone(s, now);
    hide Purged, Inv, IdSet;
  }

  lemma PlugAddsNone(s: Registry, stream: nat, now: nat, scanned: Option<nat>)
    requires Inv(s) && Enabled(s, Plug(stream, now, scanned))
    ensures FewerUsb(s, Attach(s, stream, now, scanned))
  {
    PurgeAddsNone(s, now);
    AttachServesTheQueue(s, stream, now, scanned);
    hide Purged, Attach, Inv, Enabled;
  }

  lemma StepKeepsOneUsbExactly(s: Registry, op: Op)
    requires Inv(s) && Enabled(s, op) && AtMostOneUsb(s)
    ensures AtMostOneUsb(Apply(s, op)) <==> KeepsOneUsb(s, op)
  {
    hide Inv, Tidy, Attach, Register, Purged, Without, Chosen, Scanned, Negotiated, Queued, KeyTaken, OnUsb;
    match op
    case Join(r, at, replaced) =>
      if r.kind.Wifi? {
        WifiAddsNone(s, r, at, replaced);
      } else if Register(s, r, at, replaced).1 {
        SingleUsbExactly(s, r, at, replaced);
      } else {
        RejectedExactly(s, r, at, replaced);
      }
    case Plug(stream, at, scanned) =>
      PlugAddsNone(s, stream, at, scanned);
    case _ =>
      assert FewerUsb(s, Apply(s, op));
  }

  ghost predicate AlwaysOneUsb(s: Registry, ops: seq<Op>)
    requires Possible(s, ops)
    decreases ops
  {
    AtMostOneUsb(s) && (ops != [] ==> AlwaysOneUsb(Apply(s, ops[0]), ops[1..]))
  }

  ghost predicate AllKeepOneUsb(s: Registry, ops: seq<Op>)
    requires Possible(s, ops)
    decreases ops
  {
    ops != [] ==> KeepsOneUsb(s, ops[0]) && AllKeepOneUsb(Apply(s, ops[0]), ops[1..])
  }

  /** Over any run there is never more than one USB session exactly when every accepted USB registration takes the
      place of the earlier one. */
  lemma {:induction false} SingleUsbRun(s: Registry, ops: seq<Op>)
    requires Inv(s) && AtMostOneUsb(s) && Possible(s, ops)
    ensures AlwaysOneUsb(s, ops) <==> AllKeepOneUsb(s, ops)
    decreases ops
  {
    hide Inv, AtMostOneUsb, Apply, Enabled, KeepsOneUsb;
    if ops != [] {
      StepKeepsOneUsbExactly(s, ops[0]);
      StepKeeps(s, ops[0]);
      if AtMostOneUsb(Apply(s, ops[0])) {
        SingleUsbRun(Apply(s, ops[0]), ops[1..]);
      }
    }
  }

  lemma {:induction false} NoneExpires(waiting: seq<Waiting>, now: nat)
    requires forall k :: 0 <= k < |waiting| ==> !TimedOut(waiting[k], now)
    ensures StillWaiting(waiting, now) == waiting && ExpiredIds(waiting, now) == []
  {
    if waiting != [] {
      assert waiting == [waiting[0]] + waiting[1..];
      NoneExpires(waiting[1..], now);
    }
  }

  /** A stream that comes at once goes to the head of the queue. */
  lemma HeadIsServed(s: Registry, stream: nat, first: nat, rest: seq<Waiting>)
    requires Inv(s) && s.waiting == [Waiting(first, 0)] + rest && forall k :: 0 <= k < |rest| ==> rest[k].since == 0
    ensures Enabled(s, Plug(stream, 0, None))
    ensures var t := Apply(s, Plug(stream, 0, None));
            Inv(t) && t.waiting == rest && OnUsb(t, first) && forall id :: OnUsb(s, id) ==> OnUsb(t, id)
  {
    NoneExpires(s.waiting, 0);
    assert Purged(s, 0) == s;
    hide Inv, Purged;
    assert Enabled(s, Plug(stream, 0, None));
    AttachServesTheQueue(s, stream, 0, None);
    StepKeeps(s, Plug(stream, 0, None));
    hide Attach;
  }

  /** Two freshly waiting USB clients both get a stream. */
  lemma BothAreServed(s: Registry, a: nat, b: nat)
    requires Inv(s) && s.waiting == [Waiting(a, 0), Waiting(b, 0)]
    ensures Possible(s, [Plug(10, 0, None), Plug(11, 0, None)])
    ensures var t := Run(s, [Plug(10, 0, None), Plug(11, 0, None)]);
            OnUsb(t, a) && OnUsb(t, b)
  {
    var first, second := Plug(10, 0, None), Plug(11, 0, None);
    assert s.waiting == [Waiting(a, 0)] + [Waiting(b, 0)];
    HeadIsServed(s, 10, a, [Waiting(b, 0)]);
    hide Inv, Enabled, Apply, OnUsb;
    var t := Apply(s, first);
    assert t.waiting == [Waiting(b, 0)] + [];
    HeadIsServed(t, 11, b, []);
    OneMore(t, second, []);
    OneMore(s, first, [second]);
    assert [second] + [] == [second] && [first] + [second] == [first, second];
  }

  lemma SecondUsbWaits(s: Registry, r: Request)
    requires Inv(s) && r.kind.Usb? && s.streams == [] && |s.clients| < MAX_CLIENTS
    requires Negotiated(r) && r.id !in s.clients && r.id !in s.served
    requires !KeyTaken(s, r.key) && forall id :: !OnUsb(s, id)
    ensures Enabled(s, Join(r, 0, None))
    ensures var t := Apply(s, Join(r, 0, None));
            && t.waiting == s.waiting + [Waiting(r.id, 0)] && t.streams == [] && |t.clients| == |s.clients| + 1
            && t.clients.Keys == s.clients.Keys + {r.id} && t.served == s.served
            && (forall id :: !OnUsb(t, id)) && Inv(t)
            && forall key :: KeyTaken(t, key) ==> KeyTaken(s, key) || key == r.key
  {
    hide Tidy, Negotiated;
    var t := Apply(s, Join(r, 0, None));
    RegisterKeeps(s, r, 0, None);
    KeysCount(s.clients, r.id, t.clients[r.id]);
    forall id ensures !OnUsb(t, id) {
      assert !OnUsb(s, id);
    }
  }

  /** Two USB devices may connect before any stream is forwarded: both then stream at once. */
  lemma TwoUsbSessions(r0: Request, r1: Request)
    requires r0.kind.Usb? && r1.kind.Usb? && r0.id != r1.id && r0.key != r1.key
    requires Negotiated(r0) && Negotiated(r1)
    ensures var ops := [Join(r0, 0, None), Join(r1, 0, None), Plug(10, 0, None), Plug(11, 0, None)];
            Possible(EMPTY, ops) && OnUsb(Run(EMPTY, ops), r0.id) && OnUsb(Run(EMPTY, ops), r1.id)
  {
    assert Inv(EMPTY) && forall id :: !OnUsb(EMPTY, id);
    hide Negotiated, Enabled, Apply, OnUsb, Inv, KeyTaken, Possible, Run;
    var join0, join1, plugs := Join(r0, 0, None), Join(r1, 0, None), [Plug(10, 0, None), Plug(11, 0, None)];
    SecondUsbWaits(EMPTY, r0) by { NoKeys(r0.key); }
    var s := Apply(EMPTY, join0);
    SecondUsbWaits(s, r1) by { NoKeys(r1.key); }
    var t := Apply(s, join1);
    BothAreServed(t, r0.id, r1.id);
    OneMore(s, join1, plugs);
    OneMore(EMPTY, join0, [join1] + plugs);
    assert [join0] + ([join1] + plugs) == [join0, join1, Plug(10, 0, None), Plug(11, 0, None)];
  }

  lemma NoKeys(key: string)
    ensures !KeyTaken(EMPTY, key)
  {
  }

  // Streams and clients that miss each other.

  predicate Stranded(s: Registry) {
    s.streams != [] && s.waiting != []
  }

  /**
   * A stream lies unused beside a waiting client exactly when a USB client lost its transport while a spare
   * stream was queued; no other step brings this about.
   */
  lemma StrandedExactly(s: Registry, op: Op)
    requires Inv(s) && Enabled(s, op) && !Stranded(s)
    ensures Stranded(Apply(s, op)) <==> op.Lose? && s.streams != [] && UsbSession(s, op.id)
  {
    hide Tidy, Negotiated, Replaceable, Scanned, Purged, Joined, Without;
    match op
    case Join(r, at, replaced) => JoinStrands(s, r, at, replaced);
    case Leave(id) => WithoutShrinks(s.waiting, id);
    case Plug(stream, at, scanned) => PlugStrands(s, stream, at, scanned);
    case _ =>
  }

  lemma FirstUsbWaits(r: Request)
    requires r.kind.Usb? && Negotiated(r)
    ensures Enabled(EMPTY, Join(r, 0, None)) && Inv(Apply(EMPTY, Join(r, 0, None)))
    ensures Apply(EMPTY, Join(r, 0, None))
         == EMPTY.(clients := map[r.id := NewClient(r).(prefersUsb := true)], waiting := [Waiting(r.id, 0)], gauge := 1)
  {
    assert Inv(EMPTY);
    RegisterKeeps(EMPTY, r, 0, None);
  }

  /** A client that nobody plugs in for a minute is evicted by the next stream: the gauge then counts one session
      for an empty registry. */
  lemma GaugeLeakIsReached(r: Request)
    requires r.kind.Usb? && Negotiated(r)
    ensures var ops := [Join(r, 0, None), Plug(10, USB_PENDING_TIMEOUT_NS + 1, None)];
            && Possible(EMPTY, ops)
            && var t := Run(EMPTY, ops); t.clients == map[] && t.settling == 0 && t.gauge == 1
  {
    var now := USB_PENDING_TIMEOUT_NS + 1;
    var join, plug := Join(r, 0, None), Plug(10, now, None);
    FirstUsbWaits(r);
    var s := Apply(EMPTY, join);
    assert ExpiredIds(s.waiting, now) == [r.id] && StillWaiting(s.waiting, now) == [];
    assert Purged(s, now) == s.(clients := map[], waiting := [], expired := 1) by {
      ExpiredAreGone(s, now);
      assert s.clients - IdSet([r.id]) == map[];
    }
    hide Purged, Inv, Negotiated, Register;
    assert Enabled(s, plug);
    AttachServesTheQueue(s, 10, now, None);
    OneMore(s, plug, []);
    OneMore(EMPTY, join, [plug]);
    assert [join] + [plug] == [join, plug] && [plug] + [] == [plug];
  }

  /** A USB client that streams while a spare stream is queued loses its transport: the spare stream stays queued
      beside the waiting client. */
  lemma StrandingIsReached(r: Request)
    requires r.kind.Usb? && Negotiated(r)
    ensures var ops := [Join(r, 0, None), Plug(10, 0, None), Plug(11, 0, None), Lose(r.id, 0)];
            Possible(EMPTY, ops) && Stranded(Run(EMPTY, ops)) && Streamless(Run(EMPTY, ops).clients, r.id)
  {
    var join, first, spare, lose := Join(r, 0, None), Plug(10, 0, None), Plug(11, 0, None), Lose(r.id, 0);
    FirstUsbWaits(r);
    var s := Apply(EMPTY, join);
    NoneExpires(s.waiting, 0);
    assert Purged(s, 0) == s;
    hide Negotiated, Inv, Register;
    assert Enabled(s, first);
    StepKeeps(s, first);
    AttachServesTheQueue(s, 10, 0, None);
    var t := Apply(s, first);
    assert t.waiting == [] && Purged(t, 0) == t;
    assert Enabled(t, spare);
    AttachServesTheQueue(t, 11, 0, None);
    var u := Apply(t, spare);
    hide Purged, Attach;
    assert u.streams == [11] && u.clients == t.clients;
    OneMore(u, lose, []);
    OneMore(t, spare, [lose]);
    OneMore(s, first, [spare, lose]);
    OneMore(EMPTY, join, [first, spare, lose]);
    assert [lose] + [] == [lose] && [spare] + [lose] == [spare, lose];
    assert [first] + [spare, lose] == [first, spare, lose];
    assert [join] + [first, spare, lose] == [join, first, spare, lose];
  }

  lemma {:induction false} WithoutShrinks(waiting: seq<Waiting>, id: nat)
    ensures |Without(waiting, id)| <= |waiting|
  {
    if waiting != [] {
      WithoutShrinks(waiting[1..], id);
    }
  }

  lemma {:induction false} PurgeShrinks(waiting: seq<Waiting>, now: nat)
    ensures |StillWaiting(waiting, now)| <= |waiting|
  {
    if waiting != [] {
      PurgeShrinks(waiting[1..], now);
    }
  }

  lemma JoinStrands(s: Registry, r: Request, now: nat, replaced: Option<nat>)
    requires !Stranded(s)
    ensures !Stranded(Register(s, r, now, replaced).0)
  {
    hide Without;
    if replaced.Some? {
      WithoutShrinks(s.waiting, replaced.value);
    }
  }

  lemma PlugStrands(s: Registry, stream: nat, now: nat, scanned: Option<nat>)
    requires Inv(s) && Enabled(s, Plug(stream, now, scanned)) && !Stranded(s)
    ensures !Stranded(Attach(s, stream, now, scanned))
  {
    ExpiredAreGone(s, now);
    AttachServesTheQueue(s, stream, now, scanned);
    PurgeShrinks(s.waiting, now);
    hide Attach, Purged, Tidy, StillWaiting, ExpiredIds, Enabled;
  }
}

/** The marks of first packets and mode changes, over runs of the registry. */
module RegistryMarks {
  import opened Words
  import opened RegistryModel
  import opened RegistryInvariants
  import opened RegistryRuns

  // First packets.

  /** Whoever was handed to the broadcaster is remembered, and nobody else. */
  lemma {:induction false} ServedByRun(s: Registry, ops: seq<Op>, id: nat)
    requires Possible(s, ops)
    ensures id in Run(s, ops).served <==> id in s.served || Reached(s, ops, id)
    decreases ops
  {
    if ops != [] {
      StepServes(s, ops[0]);
      ServedByRun(Apply(s, ops[0]), ops[1..], id);
    }
  }

  /** Some broadcast of the run found the client with a transport. */
  ghost predicate Reached(s: Registry, ops: seq<Op>, id: nat)
    requires Possible(s, ops)
    decreases ops
  {
    && ops != []
    && ((ops[0].Broadcast? && id in Reachable(s)) || Reached(Apply(s, ops[0]), ops[1..], id))
  }

  lemma {:induction false} DroppingServes(s: Registry, ids: seq<nat>)
    ensures AllDropped(s, ids).served == s.served
    decreases ids
  {
    if ids != [] {
      DroppingServes(Dropped(s, ids[0]), ids[1..]);
    }
  }

  lemma PurgeServes(s: Registry, now: nat)
    ensures Purged(s, now).served == s.served
  {
    DroppingServes(s.(waiting := StillWaiting(s.waiting, now)), ExpiredIds(s.waiting, now));
  }

  lemma RegisterServes(s: Registry, r: Request, now: nat, replaced: Option<nat>)
    ensures Register(s, r, now, replaced).0.served == s.served
  {
    hide Without, NewClient;
  }

  lemma StepServes(s: Registry, op: Op)
    requires Enabled(s, op)
    ensures Apply(s, op).served == s.served + if op.Broadcast? then Reachable(s) else {}
  {
    hide Reachable, Chosen, Negotiated, Without, Queued, Scanned, Purged, Retuned, Register;
    if op.Plug? {
      PurgeServes(s, op.at);
    }
    if op.Join? {
      RegisterServes(s, op.request, op.at, op.replaced);
    }
  }

  /** The first snapshot that ever names a client marks its packet as the first one. */
  lemma FirstSnapshotIsMarked(ops: seq<Op>, id: nat)
    requires Possible(EMPTY, ops) && id in Snapshots(Run(EMPTY, ops)) && !Reached(EMPTY, ops, id)
    ensures Snapshots(Run(EMPTY, ops))[id].firstPacket
  {
    assert Inv(EMPTY);
    RunKeeps(EMPTY, ops);
    ServedByRun(EMPTY, ops, id);
    SnapshotsCarry(Run(EMPTY, ops), id);
  }

  /** The marks of a client are handed out once: the next snapshot of the same client carries none. */
  lemma MarksAreTakenOnce(s: Registry, id: nat)
    requires id in Snapshots(s)
    ensures id in Snapshots(TakeBroadcast(s))
    ensures Snapshots(TakeBroadcast(s))[id] == Snapshots(s)[id].(firstPacket := false, modeChanged := false)
  {
  }

  /** A mode change marks the client, keeps who and where it is, and ends on the requested codec exactly when the
      data plane carries that codec. */
  lemma ModeChangeExactly(s: Registry, id: nat, mode: AudioMode, rate: Option<u32>, codec: Option<CodecSelection>)
    requires Inv(s) && id in s.clients
    ensures var c, t := s.clients[id], SetMode(s, id, mode, rate, codec);
            && t.clients.Keys == s.clients.Keys && t == s.(clients := t.clients)
            && (forall other :: other in s.clients && other != id ==> t.clients[other] == s.clients[other])
            && var d := t.clients[id];
               && d == c.(mode := mode, modeSync := true, sampleRate := d.sampleRate, codec := d.codec,
                          firstPacket := d.firstPacket)
               && d.sampleRate == (if rate.Some? then rate.value else c.sampleRate)
               && (codec.None? ==> d.codec == c.codec && d.firstPacket == c.firstPacket)
               && (codec.Some? ==>
                     && d.firstPacket
                     && (d.codec == codec.value <==> c.plane.V2Header? || codec.value == Pcm16)
                     && (d.codec != codec.value ==> d.codec == Pcm16))
  {
    hide Inv;
  }

  // Which marks a snapshot carries.

  /** The mark of a first packet, or of a mode change. */
  function Mark(c: Client, first: bool): bool {
    if first then c.firstPacket else c.modeSync
  }

  predicate Joins(op: Op, id: nat) {
    op.Join? && op.request.id == id
  }

  predicate Retunes(s: Registry, op: Op, id: nat) {
    op.Tune? && op.id == id && id in s.clients
  }

  /** Joining, and asking for a codec, mark a first packet; any mode change marks a mode change. */
  predicate Marks(s: Registry, op: Op, id: nat, first: bool) {
    if first then Joins(op, id) || (Retunes(s, op, id) && op.codec.Some?) else Retunes(s, op, id)
  }

  /** A broadcast that reaches the client takes its marks; joining starts it anew. */
  predicate Unmarks(s: Registry, op: Op, id: nat) {
    (op.Broadcast? && id in Reachable(s)) || Joins(op, id)
  }

  ghost predicate Unmarked(s: Registry, ops: seq<Op>, id: nat)
    requires Possible(s, ops)
    decreases ops
  {
    ops != [] && (Unmarks(s, ops[0], id) || Unmarked(Apply(s, ops[0]), ops[1..], id))
  }

  /** Something in the run marks the client, and nothing after it takes the mark. */
  ghost predicate Marked(s: Registry, ops: seq<Op>, id: nat, first: bool)
    requires Possible(s, ops)
    decreases ops
  {
    && ops != []
    && var t := Apply(s, ops[0]);
       (Marks(s, ops[0], id, first) && !Unmarked(t, ops[1..], id)) || Marked(t, ops[1..], id, first)
  }

  lemma PlugMarks(s: Registry, stream: nat, now: nat, scanned: Option<nat>, id: nat, first: bool)
    requires Inv(s) && Enabled(s, Plug(stream, now, scanned)) && id in Attach(s, stream, now, scanned).clients
    ensures id in s.clients
    ensures Mark(Attach(s, stream, now, scanned).clients[id], first) == Mark(s.clients[id], first)
  {
    ExpiredAreGone(s, now);
    AttachServesTheQueue(s, stream, now, scanned);
    hide Purged, Attach, Inv, Enabled, IdSet;
  }

  lemma JoinMarks(s: Registry, r: Request, now: nat, replaced: Option<nat>, id: nat, first: bool)
    requires r.id !in s.clients && id in Register(s, r, now, replaced).0.clients
    ensures var c := Register(s, r, now, replaced).0.clients[id];
            if id == r.id then Mark(c, first) == first
            else id in s.clients && Mark(c, first) == Mark(s.clients[id], first)
  {
    hide Without;
  }

  lemma BroadcastMarks(s: Registry, id: nat, first: bool)
    requires id in s.clients
    ensures Mark(TakeBroadcast(s).clients[id], first) == (id !in Reachable(s) && Mark(s.clients[id], first))
  {
    if id in Reachable(s) {
      MarksAreTakenOnce(s, id);
    }
  }

  lemma StepMarks(s: Registry, op: Op, id: nat, first: bool)
    requires Inv(s) && Enabled(s, op) && id in Apply(s, op).clients
    ensures id !in s.clients ==> Joins(op, id)
    ensures Mark(Apply(s, op).clients[id], first) <==>
              Marks(s, op, id, first) || (id in s.clients && Mark(s.clients[id], first) && !Unmarks(s, op, id))
  {
    hide Inv, Tidy, Attach, Register, Without, Chosen, Scanned, Negotiated, Queued, TakeBroadcast;
    match op
    case Join(r, at, replaced) =>
      JoinMarks(s, r, at, replaced, id, first);
    case Plug(stream, at, scanned) =>
      PlugMarks(s, stream, at, scanned, id, first);
    case Tune(other, mode, rate, codec) =>
      if id == other && id in s.clients {
        ModeChangeExactly(s, id, mode, rate, codec);
      }
    case Broadcast =>
      assert id in s.clients by { KeysStay(s); }
      BroadcastMarks(s, id, first);
    case _ =>
  }

  lemma KeysStay(s: Registry)
    ensures TakeBroadcast(s).clients.Keys == s.clients.Keys
  {
  }

  /** A client that is not there has to join, which starts it anew. */
  lemma {:induction false} AbsentJoins(s: Registry, ops: seq<Op>, id: nat)
    requires Inv(s) && Possible(s, ops) && id !in s.clients && id in Run(s, ops).clients
    ensures Unmarked(s, ops, id)
    decreases ops
  {
    hide Inv, Apply, Enabled;
    StepKeeps(s, ops[0]);
    if id in Apply(s, ops[0]).clients {
      StepMarks(s, ops[0], id, true);
    } else {
      AbsentJoins(Apply(s, ops[0]), ops[1..], id);
    }
  }

  lemma {:induction false} RunMarks(s: Registry, ops: seq<Op>, id: nat, first: bool)
    requires Inv(s) && Possible(s, ops) && id in Run(s, ops).clients
    ensures Mark(Run(s, ops).clients[id], first) <==>
              || Marked(s, ops, id, first)
              || (id in s.clients && Mark(s.clients[id], first) && !Unmarked(s, ops, id))
    decreases ops
  {
    hide Inv, Apply, Enabled, Marks, Unmarks, Mark;
    if ops != [] {
      var t := Apply(s, ops[0]);
      StepKeeps(s, ops[0]);
      RunMarks(t, ops[1..], id, first);
      if id in t.clients {
        StepMarks(s, ops[0], id, first);
      } else {
        AbsentJoins(t, ops[1..], id);
      }
    }
  }

  /**
   * Over any run, a snapshot carries the mark of a first packet, or of a mode change, exactly when something marked
   * the client and no broadcast has reached it since: every mark is handed out, and only once.
   */
  lemma SnapshotMarksExactly(ops: seq<Op>, id: nat)
    requires Possible(EMPTY, ops) && id in Snapshots(Run(EMPTY, ops))
    ensures Snapshots(Run(EMPTY, ops))[id].firstPacket <==> Marked(EMPTY, ops, id, true)
    ensures Snapshots(Run(EMPTY, ops))[id].modeChanged <==> Marked(EMPTY, ops, id, false)
  {
    assert Inv(EMPTY);
    hide Inv, Marked, Run;
    RunMarks(EMPTY, ops, id, true);
    RunMarks(EMPTY, ops, id, false);
  }
}

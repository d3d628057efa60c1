/** The encode worker over a whole run of jobs: its pool of encoders, the tier they are set up for, and what each
    client of each job hears. */
module WorkerRuns {
  import opened Words
  import opened WireFields
  import opened AudioEncoding
  import opened EncodeWorker
  import opened PcmPayloads
  import P = AudioProtocol
  import Rates = FrameDurations
  import Parser = LasPacketParser
  import LasPackets
  import RegistryInvariants
  import RegistryMarks
  import RegistryRuns
  import SessionRegistry
  import R = RegistryModel
  import W = Watchdog

  type Pool = map<Key, Encoder>

  /** What other code answers while a job is encoded: the resampler's two outputs for each encoder, whether the
      Opus library can be initialised for it, and the library itself. */
  datatype Foreign = Foreign(
    fixed: Key -> seq<real>, resampled: Key -> seq<real>, starts: Key -> bool, opus: Key -> OpusLibrary)

  datatype Job = Job(clients: seq<R.Snapshot>, tier: W.Tier, frame: CaptureFrame, foreign: Foreign)

  datatype Worker = Worker(encoders: Pool, lastTier: W.Tier)

  const IDLE := Worker(map[], W.Green)

  /** A changed tier is applied to every encoder of the pool. */
  function Retiered(w: Worker, tier: W.Tier): Pool {
    if tier == w.lastTier then w.encoders
    else map key | key in w.encoders :: Tuned(w.encoders[key], tier, key.mode)
  }

  function EncoderFor(encoders: Pool, key: Key, job: Job): Encoder {
    if key in encoders then encoders[key]
    else Tuned(NewEncoder(key.codec, key.mode, key.rate, job.foreign.starts(key)), job.tier, key.mode)
  }

  function Encoding(encoders: Pool, key: Key, job: Job): (Encoder, seq<EncodedFrame>) {
    EncoderStep(EncoderFor(encoders, key, job), job.frame, key.mode, job.foreign.fixed(key),
                job.foreign.resampled(key), job.foreign.opus(key))
  }

  /** The frames of every group of the job, for JobSendings. */
  function FramesOf(encoders: Pool, job: Job): Key -> seq<EncodedFrame> {
    key => Encoding(encoders, key, job).1
  }

  function Encoded(encoders: Pool, keys: set<Key>, job: Job): Pool {
    map key | key in encoders.Keys + keys :: if key in keys then Encoding(encoders, key, job).0 else encoders[key]
  }

  function AfterJob(w: Worker, job: Job): Worker {
    Worker(Encoded(Retiered(w, job.tier), KeysOf(job.clients), job), job.tier)
  }

  function AfterJobs(jobs: seq<Job>): Worker {
    if jobs == [] then IDLE else AfterJob(AfterJobs(jobs[..|jobs| - 1]), jobs[|jobs| - 1])
  }

  /** The sendings of one job, whose groups are visited in this order, at the end of earlier jobs. */
  function SendingsOf(earlier: seq<Job>, job: Job, order: seq<Key>): seq<Sending> {
    JobSendings(job.clients, FramesOf(Retiered(AfterJobs(earlier), job.tier), job), order)
  }

  function RunSendings(jobs: seq<Job>, orders: seq<seq<Key>>): seq<Sending>
    requires |orders| == |jobs|
  {
    if jobs == [] then []
    else
      var n := |jobs| - 1;
      RunSendings(jobs[..n], orders[..n]) + SendingsOf(jobs[..n], jobs[n], orders[n])
  }

  /** Every group of the job is visited once. */
  ghost predicate Visits(job: Job, order: seq<Key>) {
    NoRepeats(order) && forall key :: key in order <==> key in KeysOf(job.clients)
  }

  ghost predicate AllVisited(jobs: seq<Job>, orders: seq<seq<Key>>) {
    |orders| == |jobs| && forall j :: 0 <= j < |jobs| ==> Visits(jobs[j], orders[j])
  }

  // Every encoder of the pool is the one for its key, set up for the last tier.

  predicate Fits(e: Encoder, key: Key, tier: W.Tier) {
    && e.codec == key.codec
    && e.rate == Rates.NormalizeEncoderSampleRate(key.rate)
    && e.forcePcm16 == (tier == W.Red)
    && (e.opus.Some? ==> e.codec.Opus? && e.opus.value == TierSettings(tier, key.mode))
  }

  ghost predicate PoolFits(encoders: Pool, tier: W.Tier) {
    forall key :: key in encoders ==> Fits(encoders[key], key, tier)
  }

  lemma TunedFits(e: Encoder, key: Key, before: W.Tier, tier: W.Tier)
    requires Fits(e, key, before)
    ensures Fits(Tuned(e, tier, key.mode), key, tier)
  {
    hide Rates.NormalizeEncoderSampleRate;
  }

  lemma RetieredFits(w: Worker, tier: W.Tier)
    requires PoolFits(w.encoders, w.lastTier)
    ensures PoolFits(Retiered(w, tier), tier)
  {
    hide Fits, Tuned;
    forall key | key in Retiered(w, tier) ensures Fits(Retiered(w, tier)[key], key, tier) {
      TunedFits(w.encoders[key], key, w.lastTier, tier);
    }
  }

  lemma EncoderForFits(encoders: Pool, key: Key, job: Job)
    requires PoolFits(encoders, job.tier)
    ensures Fits(EncoderFor(encoders, key, job), key, job.tier)
  {
    hide Rates.NormalizeEncoderSampleRate;
  }

  /** No call ever switches the settings: the worker encodes in the mode of the encoder's key. */
  lemma StepFits(e: Encoder, key: Key, tier: W.Tier, f: CaptureFrame, fixed: seq<real>, resampled: seq<real>,
                 opus: OpusLibrary)
    requires Fits(e, key, tier)
    ensures Fits(EncoderStep(e, f, key.mode, fixed, resampled, opus).0, key, tier)
  {
    hide DrainOpus, Pcm16Frame, Pcm24Frame, BlockOf, Rates.NormalizeEncoderSampleRate;
  }

  lemma EncodingFits(encoders: Pool, key: Key, job: Job)
    requires PoolFits(encoders, job.tier)
    ensures Fits(Encoding(encoders, key, job).0, key, job.tier)
    ensures forall f :: f in FramesOf(encoders, job)(key) ==> Allowed(key.codec, job.tier == W.Red, f.codec)
  {
    EncoderForFits(encoders, key, job);
    var e := EncoderFor(encoders, key, job);
    CodecsAreAllowed(e, job.frame, key.mode, job.foreign.fixed(key), job.foreign.resampled(key), job.foreign.opus(key));
    StepFits(e, key, job.tier, job.frame, job.foreign.fixed(key), job.foreign.resampled(key), job.foreign.opus(key));
    hide EncoderFor, EncoderStep, Allowed, PoolFits;
  }

  lemma AfterJobFits(w: Worker, job: Job)
    requires PoolFits(w.encoders, w.lastTier)
    ensures PoolFits(AfterJob(w, job).encoders, job.tier)
  {
    RetieredFits(w, job.tier);
    var encoders := Retiered(w, job.tier);
    hide Fits, Retiered, Encoding;
    forall key | key in AfterJob(w, job).encoders ensures Fits(AfterJob(w, job).encoders[key], key, job.tier) {
      EncodingFits(encoders, key, job);
    }
  }

  /** Over any run of jobs and tiers, every encoder is set up exactly as the last tier asks for its mode. */
  lemma {:induction false} RunFits(jobs: seq<Job>)
    ensures PoolFits(AfterJobs(jobs).encoders, AfterJobs(jobs).lastTier)
    ensures jobs != [] ==> AfterJobs(jobs).lastTier == jobs[|jobs| - 1].tier
  {
    if jobs != [] {
      var n := |jobs| - 1;
      RunFits(jobs[..n]);
      AfterJobFits(AfterJobs(jobs[..n]), jobs[n]);
    }
  }

  lemma ReadyFits(earlier: seq<Job>, job: Job)
    ensures PoolFits(Retiered(AfterJobs(earlier), job.tier), job.tier)
  {
    RunFits(earlier);
    RetieredFits(AfterJobs(earlier), job.tier);
  }

  // Jobs that the broadcaster makes.

  /** The clients were handed out by a registry that some run of its locked sections reaches. */
  ghost predicate HandedOut(clients: seq<R.Snapshot>) {
    exists ops ::
      && RegistryRuns.Possible(R.EMPTY, ops)
      && var s := RegistryRuns.Run(R.EMPTY, ops); SessionRegistry.Lists(clients, R.Snapshots(s), R.Reachable(s))
  }

  /** The resampler fills 10 ms of stereo at the encoder's rate. */
  predicate Resampled(job: Job) {
    forall c :: c in job.clients ==> |job.foreign.fixed(KeyOf(c))| == 2 * Max(KeyOf(c).rate / 100, 1)
  }

  ghost predicate Broadcasts(jobs: seq<Job>) {
    forall j :: 0 <= j < |jobs| ==> HandedOut(jobs[j].clients) && Resampled(jobs[j])
  }

  lemma HandedOutIsSound(clients: seq<R.Snapshot>)
    requires HandedOut(clients)
    ensures DistinctIds(clients)
    ensures forall c :: c in clients ==> Carried(c)
  {
    hide RegistryRuns.Possible, RegistryRuns.Run, SessionRegistry.Lists, R.Snapshots, R.Reachable, DistinctIds, Carried,
         RegistryInvariants.Inv;
    var ops :| RegistryRuns.Possible(R.EMPTY, ops)
               && var s := RegistryRuns.Run(R.EMPTY, ops);
                  SessionRegistry.Lists(clients, R.Snapshots(s), R.Reachable(s));
    EmptyKeeps();
    RegistryRuns.RunKeeps(R.EMPTY, ops);
    RegistryFeedsWorker(RegistryRuns.Run(R.EMPTY, ops), clients);
  }

  lemma EmptyKeeps()
    ensures RegistryInvariants.Inv(R.EMPTY)
  {
  }

  /** The codec gate, from the registry to the wire: over any run, whoever is sent a frame is a client of the job
      whose own codec allows it in the job's tier, and it is a frame of that client's encoder. */
  lemma RunGatesCodecs(earlier: seq<Job>, job: Job, order: seq<Key>, j: nat, c: R.Snapshot)
    requires HandedOut(job.clients) && j < |SendingsOf(earlier, job, order)|
    requires c in SendingsOf(earlier, job, order)[j].recipients
    ensures c in job.clients && Carried(c)
    ensures var f := SendingsOf(earlier, job, order)[j].frame;
            && Allowed(c.codec, job.tier == W.Red, f.codec)
            && f in FramesOf(Retiered(AfterJobs(earlier), job.tier), job)(KeyOf(c))
  {
    hide HandedOut, DistinctIds, Carried, Allowed, JobSendings, Retiered, AfterJobs, FramesOf, PoolFits, KeyOf;
    HandedOutIsSound(job.clients);
    ReadyFits(earlier, job);
    var encoders := Retiered(AfterJobs(earlier), job.tier);
    forall key, f | key in order && f in FramesOf(encoders, job)(key)
      ensures Allowed(key.codec, job.tier == W.Red, f.codec)
    {
      EncodingFits(encoders, key, job);
    }
    JobGatesCodecs(job.clients, FramesOf(encoders, job), order, job.tier == W.Red, j, c);
  }

  // What one client hears.

  function Heard(wires: seq<Wire>, id: nat): seq<Wire> {
    if wires == [] then []
    else
      var n := |wires| - 1;
      Heard(wires[..n], id) + if wires[n].client.id == id then [wires[n]] else []
  }

  lemma {:induction false} HeardConcat(a: seq<Wire>, b: seq<Wire>, id: nat)
    ensures Heard(a + b, id) == Heard(a, id) + Heard(b, id)
  {
    if b == [] {
      assert a + b == a;
    } else {
      var n := |b| - 1;
      assert (a + b)[..|a| + n] == a + b[..n];
      HeardConcat(a, b[..n], id);
    }
  }

  lemma {:induction false} HeardNothing(wires: seq<Wire>, id: nat)
    requires forall w :: w in wires ==> w.client.id != id
    ensures Heard(wires, id) == []
  {
    if wires != [] {
      HeardNothing(wires[..|wires| - 1], id);
    }
  }

  lemma {:induction false} HeardAll(wires: seq<Wire>, id: nat)
    requires forall w :: w in wires ==> w.client.id == id
    ensures Heard(wires, id) == wires
  {
    if wires != [] {
      var n := |wires| - 1;
      assert wires == wires[..n] + [wires[n]];
      HeardAll(wires[..n], id);
    }
  }

  /** A client hears exactly what is sent to it. */
  lemma {:induction false} HeardIs(wires: seq<Wire>, id: nat, w: Wire)
    ensures w in Heard(wires, id) <==> w in wires && w.client.id == id
  {
    if wires != [] {
      var n := |wires| - 1;
      assert wires == wires[..n] + [wires[n]];
      HeardIs(wires[..n], id, w);
    }
  }

  lemma {:induction false} HeardFanOut(f: EncodedFrame, start: nat, recipients: seq<R.Snapshot>, c: R.Snapshot)
    requires DistinctIds(recipients)
    ensures c in recipients ==> Heard(FanOut(f, start, recipients), c.id) == WiresFor(f, start, c)
    ensures (forall r :: r in recipients ==> r.id != c.id) ==> Heard(FanOut(f, start, recipients), c.id) == []
  {
    hide PacketsFor, Heard, WiresFor;
    if recipients == [] {
      HeardNothing([], c.id);
    } else {
      var n := |recipients| - 1;
      var last := recipients[n];
      assert recipients == recipients[..n] + [last];
      HeardFanOut(f, start, recipients[..n], c);
      HeardConcat(FanOut(f, start, recipients[..n]), WiresFor(f, start, last), c.id);
      HeardOne(f, start, last, c.id);
      hide FanOut;
      FanOutLast(f, start, recipients);
    }
  }

  lemma HeardOne(f: EncodedFrame, start: nat, c: R.Snapshot, id: nat)
    ensures Heard(WiresFor(f, start, c), id) == if c.id == id then WiresFor(f, start, c) else []
  {
    hide PacketsFor, Heard;
    if c.id == id {
      HeardAll(WiresFor(f, start, c), id);
    } else {
      HeardNothing(WiresFor(f, start, c), id);
    }
  }

  ghost predicate SentIn(sendings: seq<Sending>, w: Wire) {
    exists j :: 0 <= j < |sendings| && w.client in sendings[j].recipients && w.codec == sendings[j].frame.codec
  }

  lemma {:induction false} TraceReaches(start: nat, sendings: seq<Sending>)
    ensures forall w :: w in Trace(start, sendings) ==> SentIn(sendings, w)
  {
    hide FanOut, Counter;
    if sendings != [] {
      var n := |sendings| - 1;
      TraceReaches(start, sendings[..n]);
      FanOutReaches(sendings[n].frame, Counter(start, sendings[..n]), sendings[n].recipients);
      forall w | w in Trace(start, sendings)
        ensures SentIn(sendings, w)
      {
        if w in Trace(start, sendings[..n]) {
          var j :| 0 <= j < n && w.client in sendings[..n][j].recipients && w.codec == sendings[..n][j].frame.codec;
          assert w.client in sendings[j].recipients;
        }
      }
    }
  }

  lemma GroupReaches(start: nat, frames: seq<EncodedFrame>, recipients: seq<R.Snapshot>, w: Wire)
    requires w in Trace(start, SendingsFor(frames, recipients))
    ensures w.client in recipients
  {
    TraceReaches(start, SendingsFor(frames, recipients));
    hide Trace;
  }

  lemma HeardSingle(start: nat, f: EncodedFrame, recipients: seq<R.Snapshot>, c: R.Snapshot)
    requires DistinctIds(recipients) && c in recipients
    ensures Heard(Trace(start, SendingsFor([f], recipients)), c.id) == WiresFor(f, start, c)
  {
    assert SendingsFor([f], recipients) == [] + [Sending(f, recipients)];
    OneMoreSending(start, [], Sending(f, recipients));
    NothingSent(start);
    HeardFanOut(f, start, recipients, c);
    hide Trace, FanOut, Counter, Heard, WiresFor;
    assert Trace(start, SendingsFor([f], recipients)) == FanOut(f, start, recipients);
  }

  /** A client whose encoder gives one frame hears that frame once, when its group is visited. */
  lemma {:induction false} HeardInJob(clients: seq<R.Snapshot>, encode: Key -> seq<EncodedFrame>, order: seq<Key>,
                                      start: nat, c: R.Snapshot, f: EncodedFrame) returns (place: nat)
    requires DistinctIds(clients) && c in clients && NoRepeats(order) && encode(KeyOf(c)) == [f]
    ensures KeyOf(c) !in order ==> Heard(Trace(start, JobSendings(clients, encode, order)), c.id) == []
    ensures KeyOf(c) in order ==>
              && place < |order| && order[place] == KeyOf(c)
              && var number := Counter(start, JobSendings(clients, encode, order[..place]));
                 Heard(Trace(start, JobSendings(clients, encode, order)), c.id) == WiresFor(f, number, c)
  {
    place := 0;
    hide KeyOf, Heard, WiresFor, Trace, Counter, Members, DistinctIds, SendingsFor;
    NothingSent(start);
    if order == [] {
      HeardNothing([], c.id);
    } else {
      var n := |order| - 1;
      var before, group := JobSendings(clients, encode, order[..n]), Members(clients, order[n]);
      var last, next := SendingsFor(encode(order[n]), group), Counter(start, before);
      place := HeardInJob(clients, encode, order[..n], start, c, f);
      assert order == order[..n] + [order[n]];
      TraceConcat(start, before, last);
      HeardConcat(Trace(start, before), Trace(next, last), c.id);
      MembersDistinct(clients, order[n]);
      MembersAre(clients, order[n], c);
      if order[n] == KeyOf(c) {
        HeardSingle(next, f, group, c);
        place := n;
      } else {
        OthersHear(clients, order[n], next, encode(order[n]), c);
        assert place < n ==> order[..n][..place] == order[..place];
      }
    }
  }

  lemma OthersHear(clients: seq<R.Snapshot>, key: Key, start: nat, frames: seq<EncodedFrame>, c: R.Snapshot)
    requires DistinctIds(clients) && c in clients && KeyOf(c) != key
    ensures Heard(Trace(start, SendingsFor(frames, Members(clients, key))), c.id) == []
  {
    hide KeyOf, Heard, Trace, Members, SendingsFor;
    var wires := Trace(start, SendingsFor(frames, Members(clients, key)));
    forall w | w in wires ensures w.client.id != c.id {
      GroupReaches(start, frames, Members(clients, key), w);
      MembersAre(clients, key, w.client);
    }
    HeardNothing(wires, c.id);
  }

  // PCM16 clients, on either data plane.

  /** The datagrams of one job of a run. */
  function WiresOf(start: nat, earlier: seq<Job>, orders: seq<seq<Key>>, job: Job, order: seq<Key>): seq<Wire>
    requires |orders| == |earlier|
  {
    Trace(Counter(start, RunSendings(earlier, orders)), SendingsOf(earlier, job, order))
  }

  /** The Android parser takes the datagram for this job's 10 ms of 16-bit stereo samples at the client's rate, under
      the datagram's number, with the capture's time stamp and the client's marks. */
  predicate CarriesSamples(w: Wire, job: Job) {
    && w.codec == P.Codec.Pcm16
    && var parsed := Parser.Parse(w.bytes);
    && parsed.Some?
    && parsed.value.codec == LasPackets.CODEC_PCM16
    && parsed.value.sequence == ToInt32(w.number)
    && parsed.value.payload == Pcm16Payload(job.foreign.fixed(KeyOf(w.client)))
    && FlagsTell(parsed.value.flags, job.frame.isSilence, w.client)
    && parsed.value.timestampMs == ToInt64(job.frame.ptsMs) && parsed.value.channels == 2
    && parsed.value.sampleRate == KeyOf(w.client).rate && 100 * parsed.value.framesPerPacket == KeyOf(w.client).rate
  }

  /** The encoder of a PCM16 client gives one frame a job, whatever ran before and whatever the tier. */
  lemma Pcm16Frames(encoders: Pool, job: Job, c: R.Snapshot)
    requires PoolFits(encoders, job.tier) && c.codec == R.Pcm16
    ensures FramesOf(encoders, job)(KeyOf(c))
         == [Pcm16Frame(job.frame, job.foreign.fixed(KeyOf(c)), EncoderFor(encoders, KeyOf(c), job).rate)]
    ensures EncoderFor(encoders, KeyOf(c), job).rate == KeyOf(c).rate
  {
    assert Rates.NormalizeEncoderSampleRate(KeyOf(c).rate) == KeyOf(c).rate;
    hide Pcm16Frame, PoolFits, EncoderFor, Rates.NormalizeEncoderSampleRate;
    EncoderForFits(encoders, KeyOf(c), job);
  }

  lemma SamplesFit(job: Job, c: R.Snapshot)
    requires Resampled(job) && c in job.clients
    ensures |Pcm16Payload(job.foreign.fixed(KeyOf(c)))| <= 1920
  {
    hide Pcm16Payload;
    Pcm16Size(job.foreign.fixed(KeyOf(c)));
  }

  lemma Pcm16Datagram(job: Job, c: R.Snapshot, rate: u32, number: nat)
    requires Resampled(job) && c in job.clients && rate == KeyOf(c).rate
    ensures var wires := WiresFor(Pcm16Frame(job.frame, job.foreign.fixed(KeyOf(c)), rate), number, c);
            |wires| == 1 && wires[0].client == c && wires[0].number == number && CarriesSamples(wires[0], job)
  {
    var f := Pcm16Frame(job.frame, job.foreign.fixed(KeyOf(c)), rate);
    assert f.sampleRate == rate && f.channels == 2 && f.ptsMs == job.frame.ptsMs && f.isSilence == job.frame.isSilence;
    assert Rates.EncoderRate(rate);
    assert 100 * f.framesPerPacket == rate && ToInt32(rate) == rate by {
      hide Parser.Parse, WiresFor, Pcm16Payload;
    }
    hide WiresFor, Parser.Parse, Pcm16Payload, Resampled, FlagsTell, KeyOf, Rates.EncoderRate, ToInt32, ToInt64;
    SamplesFit(job, c);
    assert f.payload == Pcm16Payload(job.foreign.fixed(KeyOf(c))) && f.codec == P.Codec.Pcm16;
    hide Pcm16Frame;
    Pcm16Arrives(f, number, c);
  }

  /** What a PCM16 client hears of a job, and from which number: that of its group's frame. */
  lemma Pcm16HeardAt(start: nat, earlier: seq<Job>, orders: seq<seq<Key>>, job: Job, order: seq<Key>, c: R.Snapshot)
    returns (place: nat)
    requires |orders| == |earlier|
    requires HandedOut(job.clients) && Resampled(job) && Visits(job, order)
    requires c in job.clients && c.codec == R.Pcm16
    ensures place < |order| && order[place] == KeyOf(c)
    ensures var heard := Heard(WiresOf(start, earlier, orders, job, order), c.id);
            && |heard| == 1 && heard[0].client == c && CarriesSamples(heard[0], job)
            && heard[0].number == Counter(Counter(start, RunSendings(earlier, orders)),
                                          SendingsOf(earlier, job, order[..place]))
  {
    hide HandedOut, Heard, WiresFor, Trace, Counter, CarriesSamples, Carried, DistinctIds, PoolFits, Pcm16Frame, KeyOf,
         FramesOf, Retiered, AfterJobs, JobSendings, EncoderFor, Resampled, RunSendings;
    var encoders, next := Retiered(AfterJobs(earlier), job.tier), Counter(start, RunSendings(earlier, orders));
    var rate := EncoderFor(encoders, KeyOf(c), job).rate;
    var f := Pcm16Frame(job.frame, job.foreign.fixed(KeyOf(c)), rate);
    HandedOutIsSound(job.clients);
    ReadyFits(earlier, job);
    Pcm16Frames(encoders, job, c);
    assert KeyOf(c) in KeysOf(job.clients);
    place := HeardInJob(job.clients, FramesOf(encoders, job), order, next, c, f);
    Pcm16Datagram(job, c, rate, Counter(next, SendingsOf(earlier, job, order[..place])));
  }

  /** Whatever ran before, whatever the tier and whatever the order of the groups: a PCM16 client of a job hears one
      datagram of it, and reads the job's samples there. */
  lemma Pcm16HearsEveryJobOnce(start: nat, earlier: seq<Job>, orders: seq<seq<Key>>, job: Job, order: seq<Key>,
                               c: R.Snapshot)
    requires |orders| == |earlier|
    requires HandedOut(job.clients) && Resampled(job) && Visits(job, order)
    requires c in job.clients && c.codec == R.Pcm16
    ensures var heard := Heard(WiresOf(start, earlier, orders, job, order), c.id);
            |heard| == 1 && heard[0].client == c && CarriesSamples(heard[0], job)
  {
    hide HandedOut, Heard, WiresOf, CarriesSamples, Resampled, RunSendings, Counter, SendingsOf, Visits;
    var _ := Pcm16HeardAt(start, earlier, orders, job, order, c);
  }

  lemma RunGrows(start: nat, jobs: seq<Job>, orders: seq<seq<Key>>)
    requires jobs != [] && |orders| == |jobs|
    ensures var n := |jobs| - 1;
            && Trace(start, RunSendings(jobs, orders))
                 == Trace(start, RunSendings(jobs[..n], orders[..n]))
                    + WiresOf(start, jobs[..n], orders[..n], jobs[n], orders[n])
            && Counter(start, RunSendings(jobs, orders))
                 == Counter(Counter(start, RunSendings(jobs[..n], orders[..n])),
                            SendingsOf(jobs[..n], jobs[n], orders[n]))
  {
    hide Trace, Counter, SendingsOf;
    var n := |jobs| - 1;
    TraceConcat(start, RunSendings(jobs[..n], orders[..n]), SendingsOf(jobs[..n], jobs[n], orders[n]));
  }

  /** The jobs that list a client. */
  function Listing(jobs: seq<Job>, id: nat): seq<Job> {
    if jobs == [] then []
    else
      var n := |jobs| - 1;
      Listing(jobs[..n], id) + if Lists(jobs[n].clients, id) then [jobs[n]] else []
  }

  predicate Lists(clients: seq<R.Snapshot>, id: nat) {
    exists c :: c in clients && c.id == id
  }

  /** Wherever the client is listed, it has codec PCM16. */
  predicate AlwaysPcm16(jobs: seq<Job>, id: nat) {
    forall j, c :: 0 <= j < |jobs| && c in jobs[j].clients && c.id == id ==> c.codec == R.Pcm16
  }

  predicate AlwaysLas1(jobs: seq<Job>, id: nat) {
    forall j, c :: 0 <= j < |jobs| && c in jobs[j].clients && c.id == id ==> c.plane.LegacyLas1?
  }

  predicate CarryEach(heard: seq<Wire>, jobs: seq<Job>) {
    |heard| == |jobs| && forall k :: 0 <= k < |jobs| ==> CarriesSamples(heard[k], jobs[k])
  }

  /** All that a PCM16 client hears over a whole run of jobs, under any sequence of tiers: one PCM16 datagram for each
      job that lists it, in the order of the jobs, each with that job's samples. */
  lemma {:induction false} Pcm16StreamIsExact(start: nat, jobs: seq<Job>, orders: seq<seq<Key>>, id: nat)
    requires AllVisited(jobs, orders) && Broadcasts(jobs) && AlwaysPcm16(jobs, id)
    ensures CarryEach(Heard(Trace(start, RunSendings(jobs, orders)), id), Listing(jobs, id))
  {
    hide HandedOut, Heard, Trace, CarriesSamples, RunSendings, Visits, Resampled, WiresOf;
    if jobs == [] {
      NothingHeard(start, orders, id);
    } else {
      var n := |jobs| - 1;
      Pcm16StreamIsExact(start, jobs[..n], orders[..n], id);
      RunGrows(start, jobs, orders);
      var wires := WiresOf(start, jobs[..n], orders[..n], jobs[n], orders[n]);
      HeardConcat(Trace(start, RunSendings(jobs[..n], orders[..n])), wires, id);
      if Lists(jobs[n].clients, id) {
        var c :| c in jobs[n].clients && c.id == id;
        Pcm16HearsEveryJobOnce(start, jobs[..n], orders[..n], jobs[n], orders[n], c);
      } else {
        UnlistedHearsNothing(start, jobs[..n], orders[..n], jobs[n], orders[n], id);
      }
    }
  }

  /** The same for a client on LAS1: the registry gives it no other codec. */
  lemma Las1StreamIsExact(start: nat, jobs: seq<Job>, orders: seq<seq<Key>>, id: nat)
    requires AllVisited(jobs, orders) && Broadcasts(jobs) && AlwaysLas1(jobs, id)
    ensures CarryEach(Heard(Trace(start, RunSendings(jobs, orders)), id), Listing(jobs, id))
  {
    hide HandedOut, Heard, Trace, CarryEach, RunSendings, Visits, Resampled;
    forall j, c | 0 <= j < |jobs| && c in jobs[j].clients && c.id == id ensures c.codec == R.Pcm16 {
      HandedOutIsSound(jobs[j].clients);
      assert Carried(c);
    }
    Pcm16StreamIsExact(start, jobs, orders, id);
  }

  lemma NothingHeard(start: nat, orders: seq<seq<Key>>, id: nat)
    requires |orders| == 0
    ensures Heard(Trace(start, RunSendings([], orders)), id) == []
  {
  }

  lemma JobReaches(start: nat, earlier: seq<Job>, orders: seq<seq<Key>>, job: Job, order: seq<Key>, w: Wire)
    requires |orders| == |earlier| && HandedOut(job.clients) && w in WiresOf(start, earlier, orders, job, order)
    ensures w.client in job.clients && Allowed(w.client.codec, job.tier == W.Red, w.codec)
  {
    hide HandedOut, Trace, SendingsOf, Allowed;
    var next, sendings := Counter(start, RunSendings(earlier, orders)), SendingsOf(earlier, job, order);
    TraceReaches(next, sendings);
    var j :| 0 <= j < |sendings| && w.client in sendings[j].recipients && w.codec == sendings[j].frame.codec;
    RunGatesCodecs(earlier, job, order, j, w.client);
  }

  lemma UnlistedHearsNothing(start: nat, earlier: seq<Job>, orders: seq<seq<Key>>, job: Job, order: seq<Key>, id: nat)
    requires |orders| == |earlier| && HandedOut(job.clients) && !Lists(job.clients, id)
    ensures Heard(WiresOf(start, earlier, orders, job, order), id) == []
  {
    hide HandedOut, Heard, WiresOf, Allowed;
    var wires := WiresOf(start, earlier, orders, job, order);
    forall w | w in wires ensures w.client.id != id {
      JobReaches(start, earlier, orders, job, order, w);
    }
    HeardNothing(wires, id);
  }

  ghost predicate CarriesSome(w: Wire, jobs: seq<Job>) {
    exists j :: 0 <= j < |jobs| && w.client in jobs[j].clients && CarriesSamples(w, jobs[j])
  }

  lemma CarriedBefore(w: Wire, jobs: seq<Job>)
    requires jobs != [] && CarriesSome(w, jobs[..|jobs| - 1])
    ensures CarriesSome(w, jobs)
  {
    hide CarriesSamples;
    var j :| 0 <= j < |jobs| - 1
             && w.client in jobs[..|jobs| - 1][j].clients && CarriesSamples(w, jobs[..|jobs| - 1][j]);
    assert w.client in jobs[j].clients && CarriesSamples(w, jobs[j]);
  }

  lemma CarriedLast(w: Wire, jobs: seq<Job>)
    requires jobs != [] && w.client in jobs[|jobs| - 1].clients && CarriesSamples(w, jobs[|jobs| - 1])
    ensures CarriesSome(w, jobs)
  {
    hide CarriesSamples;
  }

  /** Every datagram that a run sends to a client whose codec is PCM16 then carries PCM16, for every tier sequence. */
  lemma {:induction false} Pcm16HearsOnlyPcm16(start: nat, jobs: seq<Job>, orders: seq<seq<Key>>, w: Wire)
    requires AllVisited(jobs, orders) && Broadcasts(jobs)
    requires w in Trace(start, RunSendings(jobs, orders)) && w.client.codec == R.Pcm16
    ensures CarriesSome(w, jobs)
  {
    hide HandedOut, Heard, Trace, CarriesSamples, CarriesSome, RunSendings, Visits, Resampled, WiresOf, Allowed;
    if jobs == [] {
      NothingHeard(start, orders, w.client.id);
      HeardIs(Trace(start, RunSendings([], orders)), w.client.id, w);
      assert false;
    } else {
      var n := |jobs| - 1;
      RunGrows(start, jobs, orders);
      var wires := WiresOf(start, jobs[..n], orders[..n], jobs[n], orders[n]);
      if w in wires {
        JobReaches(start, jobs[..n], orders[..n], jobs[n], orders[n], w);
        Pcm16HearsEveryJobOnce(start, jobs[..n], orders[..n], jobs[n], orders[n], w.client);
        HeardIs(wires, w.client.id, w);
        CarriedLast(w, jobs);
      } else {
        Pcm16HearsOnlyPcm16(start, jobs[..n], orders[..n], w);
        CarriedBefore(w, jobs);
      }
    }
  }

  lemma {:induction false} RunReaches(start: nat, jobs: seq<Job>, orders: seq<seq<Key>>, w: Wire)
    requires |orders| == |jobs| && forall j :: 0 <= j < |jobs| ==> HandedOut(jobs[j].clients)
    requires w in Trace(start, RunSendings(jobs, orders))
    ensures Carried(w.client)
  {
    hide HandedOut, Trace, RunSendings, WiresOf, Allowed, Carried, DistinctIds;
    if jobs == [] {
      NothingHeard(start, orders, w.client.id);
      HeardIs(Trace(start, RunSendings([], orders)), w.client.id, w);
      assert false;
    } else {
      var n := |jobs| - 1;
      RunGrows(start, jobs, orders);
      if w in WiresOf(start, jobs[..n], orders[..n], jobs[n], orders[n]) {
        JobReaches(start, jobs[..n], orders[..n], jobs[n], orders[n], w);
        HandedOutIsSound(jobs[n].clients);
      } else {
        RunReaches(start, jobs[..n], orders[..n], w);
      }
    }
  }

  /** Every datagram that a run sends to a client in its LAS1 plane is PCM16, for every tier sequence. */
  lemma Las1HearsOnlyPcm16(start: nat, jobs: seq<Job>, orders: seq<seq<Key>>, w: Wire)
    requires AllVisited(jobs, orders) && Broadcasts(jobs)
    requires w in Trace(start, RunSendings(jobs, orders)) && w.client.plane.LegacyLas1?
    ensures CarriesSome(w, jobs)
  {
    hide HandedOut, Trace, RunSendings, Visits, Resampled, CarriesSome;
    RunReaches(start, jobs, orders, w);
    Pcm16HearsOnlyPcm16(start, jobs, orders, w);
  }

  /** The marks of the registry reach the wire: for a PCM16 client on version 2, the flags of its datagram say what
      happened to the client since a broadcast last reached it. */
  lemma FlagsTellTheRegistry(ops: seq<RegistryInvariants.Op>, start: nat, earlier: seq<Job>, orders: seq<seq<Key>>,
                             job: Job, order: seq<Key>, c: R.Snapshot)
    requires |orders| == |earlier| && RegistryRuns.Possible(R.EMPTY, ops)
    requires var s := RegistryRuns.Run(R.EMPTY, ops);
             SessionRegistry.Lists(job.clients, R.Snapshots(s), R.Reachable(s))
    requires Resampled(job) && Visits(job, order) && c in job.clients && c.codec == R.Pcm16 && c.plane.V2Header?
    ensures var heard := Heard(WiresOf(start, earlier, orders, job, order), c.id);
            && |heard| == 1
            && var parsed := Parser.Parse(heard[0].bytes);
            && parsed.Some?
            && (parsed.value.flags / 2 % 2 == 1 <==> RegistryMarks.Marked(R.EMPTY, ops, c.id, false))
            && (parsed.value.flags / 4 == 1 <==>
                  RegistryMarks.Marked(R.EMPTY, ops, c.id, true) || RegistryMarks.Marked(R.EMPTY, ops, c.id, false))
  {
    var s := RegistryRuns.Run(R.EMPTY, ops);
    assert HandedOut(job.clients);
    assert c.id in R.Snapshots(s) && R.Snapshots(s)[c.id] == c;
    hide HandedOut, Heard, WiresOf, Resampled, Visits, RegistryRuns.Run, RegistryRuns.Possible, RegistryMarks.Marked,
         SessionRegistry.Lists, R.Snapshots, R.Reachable, Parser.Parse;
    RegistryMarks.SnapshotMarksExactly(ops, c.id);
    Pcm16HearsEveryJobOnce(start, earlier, orders, job, order, c);
  }

  lemma {:induction false} RunRecipientsDistinct(jobs: seq<Job>, orders: seq<seq<Key>>, j: nat)
    requires |orders| == |jobs| && forall k :: 0 <= k < |jobs| ==> DistinctIds(jobs[k].clients)
    requires j < |RunSendings(jobs, orders)|
    ensures DistinctIds(RunSendings(jobs, orders)[j].recipients)
  {
    hide DistinctIds, JobSendings, FramesOf;
    var n := |jobs| - 1;
    var before := RunSendings(jobs[..n], orders[..n]);
    if j < |before| {
      RunRecipientsDistinct(jobs[..n], orders[..n], j);
    } else {
      JobIsSound(jobs[n].clients, FramesOf(Retiered(AfterJobs(jobs[..n]), jobs[n].tier), jobs[n]), orders[n],
                 j - |before|);
    }
  }

  /** Over any run of jobs every client's numbers strictly increase, so none of its datagrams is sent twice. */
  lemma RunNumbersIncrease(start: nat, jobs: seq<Job>, orders: seq<seq<Key>>, id: nat)
    requires |orders| == |jobs| && forall j :: 0 <= j < |jobs| ==> HandedOut(jobs[j].clients)
    ensures Increasing(Trace(start, RunSendings(jobs, orders)), id)
  {
    hide HandedOut, DistinctIds, RunSendings, Trace, Increasing, Carried;
    forall j | 0 <= j < |jobs| ensures DistinctIds(jobs[j].clients) {
      HandedOutIsSound(jobs[j].clients);
    }
    forall j | 0 <= j < |RunSendings(jobs, orders)| ensures DistinctIds(RunSendings(jobs, orders)[j].recipients) {
      RunRecipientsDistinct(jobs, orders, j);
    }
    ClientNumbersIncrease(start, RunSendings(jobs, orders), id);
  }
}

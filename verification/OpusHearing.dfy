/** What one Opus client hears over a whole run of jobs, from its registry entry to the parser. */
module OpusHearing {
  import opened Words
  import opened OpusFraming
  import opened AudioEncoding
  import opened OpusTiers
  import opened EncodedFields
  import opened EncodeWorker
  import opened WorkerRuns
  import opened WorkerOpus
  import P = AudioProtocol
  import Rates = FrameDurations
  import R = RegistryModel

  /** One datagram for each of the frames, in order, all for this client. */
  ghost predicate HearsEach(heard: seq<Wire>, sent: seq<EncodedFrame>, id: nat) {
    && |heard| == |sent|
    && forall i :: 0 <= i < |heard| ==>
         heard[i].client.id == id && WiresFor(sent[i], heard[i].number, heard[i].client) == [heard[i]]
  }

  predicate NoHires(frames: seq<EncodedFrame>) {
    forall i :: 0 <= i < |frames| ==> frames[i].codec != P.Codec.Pcm24
  }

  lemma HearsMore(heard: seq<Wire>, sent: seq<EncodedFrame>, more: seq<Wire>, next: seq<EncodedFrame>, id: nat)
    requires HearsEach(heard, sent, id) && HearsEach(more, next, id)
    ensures HearsEach(heard + more, sent + next, id)
  {
    hide WiresFor;
  }

  lemma SingleWire(f: EncodedFrame, start: nat, c: R.Snapshot)
    requires f.codec != P.Codec.Pcm24
    ensures HearsEach(WiresFor(f, start, c), [f], c.id)
  {
    PiecesAre(f, start, c);
    var w := WiresFor(f, start, c)[0];
    assert w.number == start && w.client == c;
  }

  lemma {:induction false} HeardFromGroup(start: nat, frames: seq<EncodedFrame>, recipients: seq<R.Snapshot>,
                                          c: R.Snapshot)
    requires DistinctIds(recipients) && c in recipients && NoHires(frames)
    ensures HearsEach(Heard(Trace(start, SendingsFor(frames, recipients)), c.id), frames, c.id)
  {
    hide Heard, FanOut, After, HearsEach, WiresFor, DistinctIds;
    if frames == [] {
      assert SendingsFor(frames, recipients) == [];
      NothingSent(start);
      HeardNothing([], c.id);
      NothingToHear(c.id);
    } else {
      var n := |frames| - 1;
      var before := SendingsFor(frames[..n], recipients);
      HeardFromGroup(start, frames[..n], recipients, c);
      assert SendingsFor(frames, recipients) == before + [Sending(frames[n], recipients)];
      OneMoreSending(start, before, Sending(frames[n], recipients));
      var counter := Counter(start, before);
      hide Trace, Counter, SendingsFor;
      HeardConcat(Trace(start, before), FanOut(frames[n], counter, recipients), c.id);
      HeardFanOut(frames[n], counter, recipients, c);
      SingleWire(frames[n], counter, c);
      HearsMore(Heard(Trace(start, before), c.id), frames[..n], WiresFor(frames[n], counter, c), [frames[n]], c.id);
      assert frames[..n] + [frames[n]] == frames;
    }
  }

  lemma NothingToHear(id: nat)
    ensures HearsEach([], [], id)
  {
  }

  /** A client hears the frames of its own group, when that is visited, and nothing else. */
  lemma {:induction false} HeardFromJob(clients: seq<R.Snapshot>, encode: Key -> seq<EncodedFrame>, order: seq<Key>,
                                        start: nat, c: R.Snapshot)
    requires DistinctIds(clients) && c in clients && NoRepeats(order) && NoHires(encode(KeyOf(c)))
    ensures HearsEach(Heard(Trace(start, JobSendings(clients, encode, order)), c.id),
                      if KeyOf(c) in order then encode(KeyOf(c)) else [], c.id)
  {
    hide KeyOf, Heard, Trace, Counter, Members, DistinctIds, SendingsFor, HearsEach, NoHires;
    NothingSent(start);
    NothingToHear(c.id);
    if order == [] {
      HeardNothing([], c.id);
    } else {
      var n := |order| - 1;
      var before, group := JobSendings(clients, encode, order[..n]), Members(clients, order[n]);
      var last, next := SendingsFor(encode(order[n]), group), Counter(start, before);
      HeardFromJob(clients, encode, order[..n], start, c);
      assert order == order[..n] + [order[n]];
      TraceConcat(start, before, last);
      HeardConcat(Trace(start, before), Trace(next, last), c.id);
      MembersDistinct(clients, order[n]);
      MembersAre(clients, order[n], c);
      var heard, more := Heard(Trace(start, before), c.id), Heard(Trace(next, last), c.id);
      if order[n] == KeyOf(c) {
        HeardFromGroup(next, encode(order[n]), group, c);
        HearsMore(heard, [], more, encode(order[n]), c.id);
        assert [] + encode(order[n]) == encode(order[n]);
      } else {
        OthersHear(clients, order[n], next, encode(order[n]), c);
        assert heard + more == heard;
      }
    }
  }

  /** The client is listed exactly in the jobs that use this group, and always as one of the group. */
  predicate BelongsTo(jobs: seq<Job>, id: nat, key: Key) {
    forall j :: 0 <= j < |jobs| ==>
      && (forall c :: c in jobs[j].clients && c.id == id ==> KeyOf(c) == key)
      && (key in KeysOf(jobs[j].clients) ==> Lists(jobs[j].clients, id))
  }

  lemma GroupFrames(earlier: seq<Job>, job: Job, key: Key)
    requires key.codec == R.Opus
    ensures NoHires(FramesOf(Retiered(AfterJobs(earlier), job.tier), job)(key))
  {
    var encoders := Retiered(AfterJobs(earlier), job.tier);
    ReadyFits(earlier, job);
    EncodingFits(encoders, key, job);
    hide FramesOf, AfterJobs, Retiered, PoolFits;
    var frames := FramesOf(encoders, job)(key);
    forall i | 0 <= i < |frames| ensures frames[i].codec != P.Codec.Pcm24 {
      assert frames[i] in frames;
    }
  }

  lemma JobHeard(start: nat, earlier: seq<Job>, orders: seq<seq<Key>>, job: Job, order: seq<Key>, c: R.Snapshot)
    requires |orders| == |earlier| && HandedOut(job.clients) && Visits(job, order)
    requires c in job.clients && KeyOf(c).codec == R.Opus
    ensures HearsEach(Heard(WiresOf(start, earlier, orders, job, order), c.id),
                      FramesOf(Retiered(AfterJobs(earlier), job.tier), job)(KeyOf(c)), c.id)
  {
    HandedOutIsSound(job.clients);
    GroupFrames(earlier, job, KeyOf(c));
    hide HandedOut, Heard, Trace, Counter, DistinctIds, KeyOf, FramesOf, Retiered, AfterJobs, JobSendings, RunSendings,
         HearsEach, NoHires;
    assert KeyOf(c) in KeysOf(job.clients);
    HeardFromJob(job.clients, FramesOf(Retiered(AfterJobs(earlier), job.tier), job), order,
                 Counter(start, RunSendings(earlier, orders)), c);
  }

  /** All that an Opus client hears over a run: one datagram for each frame its group gets, in order. */
  lemma {:induction false} GroupIsHeard(start: nat, jobs: seq<Job>, orders: seq<seq<Key>>, id: nat, key: Key)
    requires AllVisited(jobs, orders) && Broadcasts(jobs) && BelongsTo(jobs, id, key) && key.codec == R.Opus
    ensures HearsEach(Heard(Trace(start, RunSendings(jobs, orders)), id), SentFor(jobs, key), id)
  {
    hide HandedOut, Heard, Trace, RunSendings, Visits, Resampled, WiresOf, HearsEach, FramesOf, Retiered, AfterJobs,
         KeysOf, KeyOf, Lists;
    if jobs == [] {
      NothingHeard(start, orders, id);
      NothingToHear(id);
    } else {
      var n := |jobs| - 1;
      GroupIsHeard(start, jobs[..n], orders[..n], id, key);
      RunGrows(start, jobs, orders);
      var before := Heard(Trace(start, RunSendings(jobs[..n], orders[..n])), id);
      var wires := WiresOf(start, jobs[..n], orders[..n], jobs[n], orders[n]);
      HeardConcat(Trace(start, RunSendings(jobs[..n], orders[..n])), wires, id);
      LastJobHeard(start, jobs[..n], orders[..n], jobs[n], orders[n], id, key);
      HearsMore(before, SentFor(jobs[..n], key), Heard(wires, id),
                if key in KeysOf(jobs[n].clients)
                then FramesOf(Retiered(AfterJobs(jobs[..n]), jobs[n].tier), jobs[n])(key) else [], id);
    }
  }

  lemma LastJobHeard(start: nat, earlier: seq<Job>, orders: seq<seq<Key>>, job: Job, order: seq<Key>, id: nat, key: Key)
    requires |orders| == |earlier| && HandedOut(job.clients) && Visits(job, order) && key.codec == R.Opus
    requires forall c :: c in job.clients && c.id == id ==> KeyOf(c) == key
    requires key in KeysOf(job.clients) ==> Lists(job.clients, id)
    ensures HearsEach(Heard(WiresOf(start, earlier, orders, job, order), id),
                      if key in KeysOf(job.clients) then FramesOf(Retiered(AfterJobs(earlier), job.tier), job)(key)
                      else [], id)
  {
    hide HandedOut, Heard, WiresOf, Visits, HearsEach, FramesOf, Retiered, AfterJobs, KeyOf;
    if Lists(job.clients, id) {
      var c :| c in job.clients && c.id == id;
      assert KeyOf(c) in KeysOf(job.clients);
      JobHeard(start, earlier, orders, job, order, c);
    } else {
      UnlistedHearsNothing(start, earlier, orders, job, order, id);
      NothingToHear(id);
    }
  }

  lemma FramesPerTen(rate: u32)
    requires Rates.EncoderRate(rate)
    ensures 2 * (2 * Max(rate / 100, 1)) == SamplesPer20Ms(rate)
  {
  }

  lemma ResampledIsTenEach(jobs: seq<Job>, key: Key)
    requires forall j :: 0 <= j < |jobs| ==> Resampled(jobs[j])
    ensures TenEach(jobs, key)
  {
    hide SamplesPer20Ms;
    forall j | 0 <= j < |jobs| && key in KeysOf(jobs[j].clients)
      ensures 2 * |jobs[j].foreign.fixed(key)| == SamplesPer20Ms(Start(key).rate)
    {
      var c :| c in jobs[j].clients && KeyOf(c) == key;
      FramesPerTen(key.rate);
    }
  }

  /**
   * From the registry to the wire, for a client on Opus that is in its group whenever that is used. Over any run of
   * jobs, with any other clients and tiers: what it hears is one datagram for each frame of its group, and among those
   * frames the k-th Opus packet is the library's k-th answer, to the 2k-th and (2k+1)-th of its captures outside Red.
   */
  lemma OpusStreamIsExact(start: nat, jobs: seq<Job>, orders: seq<seq<Key>>, id: nat, key: Key, opus: OpusLibrary,
                          k: nat)
    requires AllVisited(jobs, orders) && Broadcasts(jobs) && BelongsTo(jobs, id, key) && key.codec == R.Opus
    requires OneLibrary(jobs, key, opus) && NeverFails(opus)
    ensures HearsEach(Heard(Trace(start, RunSendings(jobs, orders)), id), SentFor(jobs, key), id)
    ensures var turns, sent := TurnsOf(jobs, key), OpusOnly(SentFor(jobs, key));
            && |sent| == |Fed(turns)| / 2
            && (k < |sent| ==>
                  var i, j := Fed(turns)[2 * k], Fed(turns)[2 * k + 1];
                  JoinsCaptures(sent[k], turns[i].input, turns[j].input, k, Start(key).rate, opus))
  {
    GroupIsHeard(start, jobs, orders, id, key);
    ResampledIsTenEach(jobs, key);
    hide AllVisited, Broadcasts, BelongsTo, HearsEach, Heard, Trace, RunSendings, TurnsOf, SentFor, Fed, OpusOnly,
         JoinsCaptures, OneLibrary, NeverFails, TenEach, Start;
    OpusGroupCarries(jobs, key, opus, k);
  }
}

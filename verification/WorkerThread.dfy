/** The encode worker's thread as an object: its pool of encoder objects, the tier, and its loop over jobs. */
module WorkerThread {
  import opened AudioEncoding
  import opened EncodeWorker
  import opened WorkerRuns
  import R = RegistryModel
  import W = Watchdog

  // Along one job.

  lemma FoundIsEncoded(pool: Pool, key: Key, job: Job)
    ensures var found := pool[key := EncoderFor(pool, key, job)];
            && Encoding(found, key, job) == Encoding(pool, key, job)
            && found[key := Encoding(pool, key, job).0] == pool[key := Encoding(pool, key, job).0]
  {
    hide EncoderStep, Tuned, NewEncoder;
  }

  lemma OrderGoesOn(clients: seq<R.Snapshot>, encode: Key -> seq<EncodedFrame>, order: seq<Key>, key: Key, start: nat)
    ensures var before := JobSendings(clients, encode, order);
            var last, next := SendingsFor(encode(key), Members(clients, key)), Counter(start, before);
            && Trace(start, JobSendings(clients, encode, order + [key])) == Trace(start, before) + Trace(next, last)
            && Counter(start, JobSendings(clients, encode, order + [key])) == Counter(next, last)
  {
    hide Trace, Counter, SendingsFor, Members;
    assert (order + [key])[..|order|] == order;
    TraceConcat(start, JobSendings(clients, encode, order), SendingsFor(encode(key), Members(clients, key)));
  }

  /** The job's groups in this order were encoded with this pool and sent, and these keys are still to come. */
  ghost predicate SentSoFar(pool: Pool, job: Job, counter: nat, order: seq<Key>, todo: set<Key>, wires: seq<Wire>,
                            next: nat) {
    && todo <= KeysOf(job.clients)
    && NoRepeats(order) && (forall key :: key in order <==> key in KeysOf(job.clients) - todo)
    && wires == Trace(counter, JobSendings(job.clients, FramesOf(pool, job), order))
    && next == Counter(counter, JobSendings(job.clients, FramesOf(pool, job), order))
  }

  /** The pool by then. */
  ghost function PoolSoFar(pool: Pool, job: Job, todo: set<Key>): Pool {
    Encoded(pool, KeysOf(job.clients) - todo, job)
  }

  lemma NothingSentYet(pool: Pool, job: Job, counter: nat)
    ensures SentSoFar(pool, job, counter, [], KeysOf(job.clients), [], counter)
    ensures PoolSoFar(pool, job, KeysOf(job.clients)) == pool
  {
    hide KeysOf, Trace, Counter;
    NothingSent(counter);
  }

  lemma EncodedGrows(pool: Pool, keys: set<Key>, key: Key, job: Job)
    requires key !in keys
    ensures Encoding(Encoded(pool, keys, job), key, job) == Encoding(pool, key, job)
    ensures Encoded(pool, keys + {key}, job) == Encoded(pool, keys, job)[key := Encoding(pool, key, job).0]
  {
    hide EncoderStep, Tuned, NewEncoder;
  }

  lemma OneMoreEncoded(pool: Pool, job: Job, todo: set<Key>, key: Key)
    requires key in todo && todo <= KeysOf(job.clients)
    ensures var before := PoolSoFar(pool, job, todo);
            && Encoding(before, key, job) == Encoding(pool, key, job)
            && PoolSoFar(pool, job, todo - {key}) == before[key := Encoding(pool, key, job).0]
  {
    hide Encoding, Encoded, KeysOf;
    EncodedGrows(pool, KeysOf(job.clients) - todo, key, job);
    assert KeysOf(job.clients) - (todo - {key}) == (KeysOf(job.clients) - todo) + {key};
  }

  lemma OneMoreSent(pool: Pool, job: Job, counter: nat, order: seq<Key>, todo: set<Key>, wires: seq<Wire>, next: nat,
                    key: Key)
    requires SentSoFar(pool, job, counter, order, todo, wires, next) && key in todo
    ensures var sendings := SendingsFor(Encoding(pool, key, job).1, Members(job.clients, key));
            SentSoFar(pool, job, counter, order + [key], todo - {key}, wires + Trace(next, sendings),
                      Counter(next, sendings))
  {
    hide KeysOf, Trace, Counter, SendingsFor, Members, JobSendings, Encoding;
    NoRepeatsGrows(order, key);
    OrderGrows(order, key);
    OrderGoesOn(job.clients, FramesOf(pool, job), order, key, counter);
  }

  lemma AllSent(pool: Pool, job: Job, counter: nat, order: seq<Key>, wires: seq<Wire>, next: nat)
    requires SentSoFar(pool, job, counter, order, {}, wires, next)
    ensures Visits(job, order)
    ensures PoolSoFar(pool, job, {}) == Encoded(pool, KeysOf(job.clients), job)
    ensures forall w :: w in wires ==> counter <= w.number < next
    ensures DistinctIds(job.clients) ==> forall id :: Increasing(wires, id)
  {
    hide KeysOf, Trace, Counter, DistinctIds, Increasing, JobSendings, FramesOf;
    assert KeysOf(job.clients) - {} == KeysOf(job.clients);
    TraceWithin(counter, JobSendings(job.clients, FramesOf(pool, job), order));
    if DistinctIds(job.clients) {
      JobIncreases(job.clients, FramesOf(pool, job), order, counter);
    }
  }

  lemma SentIs(pool: Pool, job: Job, counter: nat, order: seq<Key>, wires: seq<Wire>, next: nat)
    requires SentSoFar(pool, job, counter, order, {}, wires, next)
    ensures wires == Trace(counter, JobSendings(job.clients, FramesOf(pool, job), order))
    ensures next == Counter(counter, JobSendings(job.clients, FramesOf(pool, job), order))
  {
  }

  /** These jobs were done, and this is what they sent. */
  ghost predicate RanSoFar(start: nat, jobs: seq<Job>, orders: seq<seq<Key>>, wires: seq<Wire>, next: nat) {
    && AllVisited(jobs, orders)
    && wires == Trace(start, RunSendings(jobs, orders))
    && next == Counter(start, RunSendings(jobs, orders))
  }

  lemma NothingRan(start: nat)
    ensures RanSoFar(start, [], [], [], start) && AfterJobs([]) == IDLE
  {
    NothingSent(start);
  }

  lemma OneMoreJob(start: nat, jobs: seq<Job>, orders: seq<seq<Key>>, wires: seq<Wire>, next: nat, job: Job,
                   order: seq<Key>)
    requires RanSoFar(start, jobs, orders, wires, next) && Visits(job, order)
    ensures AfterJobs(jobs + [job]) == AfterJob(AfterJobs(jobs), job)
    ensures var sendings := SendingsOf(jobs, job, order);
            RanSoFar(start, jobs + [job], orders + [order], wires + Trace(next, sendings), Counter(next, sendings))
  {
    hide Trace, Counter, AfterJob, RunSendings, Visits, SendingsOf;
    assert (jobs + [job])[..|jobs|] == jobs && (orders + [order])[..|jobs|] == orders;
    RunGrows(start, jobs + [job], orders + [order]);
  }

  lemma RunIsOrdered(start: nat, jobs: seq<Job>, orders: seq<seq<Key>>, wires: seq<Wire>, next: nat)
    requires RanSoFar(start, jobs, orders, wires, next)
    ensures forall w :: w in wires ==> start <= w.number < next
    ensures (forall j :: 0 <= j < |jobs| ==> HandedOut(jobs[j].clients)) ==> forall id :: Increasing(wires, id)
  {
    hide HandedOut, Trace, Counter, Increasing, RunSendings;
    TraceWithin(start, RunSendings(jobs, orders));
    if forall j :: 0 <= j < |jobs| ==> HandedOut(jobs[j].clients) {
      forall id ensures Increasing(wires, id) {
        RunNumbersIncrease(start, jobs, orders, id);
      }
    }
  }

  // The worker itself.

  /** The thread's own state: its encoders, and the tier last applied to them. */
  class EncodeThread {
    var encoders: map<Key, AudioFrameEncoder>
    var lastTier: W.Tier
    ghost var Repr: set<object>

    /** No two keys share an encoder, or a buffer. */
    ghost predicate Valid()
      reads this, Repr
    {
      && this !in Repr
      && (forall key :: key in encoders ==>
            encoders[key] in Repr && encoders[key].buffer in Repr && encoders[key].Valid())
      && forall a, b :: a in encoders && b in encoders && a != b ==>
                          encoders[a] != encoders[b] && encoders[a].buffer != encoders[b].buffer
    }

    ghost function Encoders(): Pool
      requires Valid()
      reads this, Repr
    {
      map key | key in encoders :: encoders[key].State()
    }

    ghost function State(): Worker
      requires Valid()
      reads this, Repr
    {
      Worker(Encoders(), lastTier)
    }

    constructor ()
      ensures Valid() && fresh(Repr) && State() == IDLE
    {
      encoders, lastTier, Repr := map[], W.Green, {};
    }

    method TuneOne(key: Key, tier: W.Tier)
      requires Valid() && key in encoders
      modifies Repr
      ensures Valid() && unchanged(this)
      ensures Encoders() == old(Encoders())[key := Tuned(old(Encoders())[key], tier, key.mode)]
    {
      hide Tuned, AudioFrameEncoder.State;
      encoders[key].ApplyTierProfile(tier, key.mode);
    }

    method ApplyTier(tier: W.Tier)
      requires Valid()
      modifies Repr
      ensures Valid() && unchanged(this)
      ensures Encoders() == map key | key in encoders :: Tuned(old(Encoders())[key], tier, key.mode)
    {
      hide Tuned, Valid, AudioFrameEncoder.State;
      var todo := encoders.Keys;
      while todo != {}
        invariant todo <= encoders.Keys
        invariant Valid() && unchanged(this)
        invariant forall key :: key in encoders ==>
                    Encoders()[key]
                      == if key in todo then old(Encoders())[key] else Tuned(old(Encoders())[key], tier, key.mode)
        decreases |todo|
      {
        var key :| key in todo;
        todo := todo - {key};
        TuneOne(key, tier);
      }
    }

    method MakeEncoder(key: Key, job: Job) returns (e: AudioFrameEncoder)
      ensures fresh(e) && fresh(e.buffer) && e.Valid()
      ensures e.State() == Tuned(NewEncoder(key.codec, key.mode, key.rate, job.foreign.starts(key)), job.tier, key.mode)
    {
      e := new AudioFrameEncoder(key.codec, key.mode, key.rate, job.foreign.starts(key));
      e.ApplyTierProfile(job.tier, key.mode);
    }

    /** An encoder is made the first time its key turns up. */
    method FindOrMake(key: Key, job: Job)
      requires Valid()
      modifies this
      ensures Valid() && fresh(Repr - old(Repr)) && lastTier == old(lastTier)
      ensures key in encoders && Encoders() == old(Encoders())[key := EncoderFor(old(Encoders()), key, job)]
    {
      hide Tuned, NewEncoder, AudioFrameEncoder.State, AudioFrameEncoder.Valid;
      if key !in encoders {
        var e := MakeEncoder(key, job);
        encoders, Repr := encoders[key := e], Repr + {e, e.buffer};
      }
    }

    method EncodeWith(key: Key, job: Job) returns (frames: seq<EncodedFrame>)
      requires Valid() && key in encoders
      modifies Repr
      ensures Valid() && unchanged(this)
      ensures Encoders() == old(Encoders())[key := Encoding(old(Encoders()), key, job).0]
      ensures frames == Encoding(old(Encoders()), key, job).1
    {
      hide EncoderStep, Tuned, NewEncoder, AudioFrameEncoder.State;
      frames := encoders[key].Encode(job.frame, key.mode, job.foreign.fixed(key), job.foreign.resampled(key),
                                     job.foreign.opus(key));
    }

    method EncodeGroup(key: Key, job: Job) returns (frames: seq<EncodedFrame>)
      requires Valid()
      modifies this, Repr
      ensures Valid() && fresh(Repr - old(Repr)) && lastTier == old(lastTier)
      ensures Encoders() == old(Encoders())[key := Encoding(old(Encoders()), key, job).0]
      ensures frames == Encoding(old(Encoders()), key, job).1
    {
      hide Valid, Encoders, Encoding, EncoderFor;
      FoundIsEncoded(Encoders(), key, job);
      FindOrMake(key, job);
      frames := EncodeWith(key, job);
    }

    /** Encodes and sends the frame for every group, in whatever order the hash map is walked. */
    method VisitGroups(groups: map<Key, seq<R.Snapshot>>, job: Job, counter: nat, ghost pool: Pool)
      returns (wires: seq<Wire>, next: nat, ghost order: seq<Key>)
      requires Valid() && Encoders() == pool && Grouped(job.clients, groups)
      modifies this, Repr
      ensures Valid() && fresh(Repr - old(Repr)) && lastTier == old(lastTier)
      ensures Encoders() == PoolSoFar(pool, job, {})
      ensures SentSoFar(pool, job, counter, order, {}, wires, next)
    {
      wires, next, order := [], counter, [];
      var todo := groups.Keys;
      NothingSentYet(pool, job, counter);
      hide Trace, Counter, KeysOf, Members, SendingsFor, Encoding, Valid, Encoders, SentSoFar, PoolSoFar;
      while todo != {}
        invariant todo <= groups.Keys
        invariant Valid() && fresh(Repr - old(Repr)) && lastTier == old(lastTier)
        invariant Encoders() == PoolSoFar(pool, job, todo)
        invariant SentSoFar(pool, job, counter, order, todo, wires, next)
        decreases |todo|
      {
        var key :| key in todo;
        OneMoreEncoded(pool, job, todo, key);
        OneMoreSent(pool, job, counter, order, todo, wires, next, key);
        var frames := EncodeGroup(key, job);
        var more;
        more, next := SendGroup(frames, groups[key], next);
        todo, wires, order := todo - {key}, wires + more, order + [key];
      }
    }

    method EncodeJob(job: Job, counter: nat) returns (wires: seq<Wire>, next: nat, ghost order: seq<Key>)
      requires Valid()
      modifies this, Repr
      ensures Valid() && fresh(Repr - old(Repr)) && lastTier == old(lastTier)
      ensures Visits(job, order)
      ensures Encoders() == Encoded(old(Encoders()), KeysOf(job.clients), job)
      ensures wires == Trace(counter, JobSendings(job.clients, FramesOf(old(Encoders()), job), order))
      ensures next == Counter(counter, JobSendings(job.clients, FramesOf(old(Encoders()), job), order))
      ensures forall w :: w in wires ==> counter <= w.number < next
      ensures DistinctIds(job.clients) ==> forall id :: Increasing(wires, id)
    {
      hide Trace, Counter, KeysOf, JobSendings, Encoded, FramesOf, Valid, Encoders, SentSoFar, PoolSoFar, Increasing,
           DistinctIds, Visits, Grouped;
      ghost var pool := Encoders();
      var groups := GroupRecipients(job.clients);
      wires, next, order := VisitGroups(groups, job, counter, pool);
      AllSent(pool, job, counter, order, wires, next);
      SentIs(pool, job, counter, order, wires, next);
    }

    /** A changed tier is applied to every encoder, and remembered. */
    method Retier(tier: W.Tier)
      requires Valid()
      modifies this`lastTier, Repr
      ensures Valid() && Repr == old(Repr)
      ensures lastTier == tier && Encoders() == Retiered(old(State()), tier)
    {
      hide Tuned, AudioFrameEncoder.State, AudioFrameEncoder.Valid;
      if tier != lastTier {
        ApplyTier(tier);
        lastTier := tier;
      }
    }

    /** One turn of the loop. */
    method RunJob(job: Job, counter: nat) returns (wires: seq<Wire>, next: nat, ghost order: seq<Key>)
      requires Valid()
      modifies this, Repr
      ensures Valid() && fresh(Repr - old(Repr))
      ensures Visits(job, order)
      ensures State() == AfterJob(old(State()), job)
      ensures var frames := FramesOf(Retiered(old(State()), job.tier), job);
              && wires == Trace(counter, JobSendings(job.clients, frames, order))
              && next == Counter(counter, JobSendings(job.clients, frames, order))
    {
      hide Trace, Counter, Encoded, Visits, Retiered, JobSendings, FramesOf, Valid, Encoders, KeysOf;
      Retier(job.tier);
      wires, next, order := EncodeJob(job, counter);
    }
  }

  /** The worker, job by job until the channel is closed. */
  method RunWorker(jobs: seq<Job>, start: nat)
    returns (wires: seq<Wire>, next: nat, ghost orders: seq<seq<Key>>)
    ensures RanSoFar(start, jobs, orders, wires, next)
    ensures forall w :: w in wires ==> start <= w.number < next
    ensures (forall j :: 0 <= j < |jobs| ==> HandedOut(jobs[j].clients)) ==> forall id :: Increasing(wires, id)
  {
    var worker := new EncodeThread();
    wires, next, orders := [], start, [];
    NothingRan(start);
    hide Trace, Counter, AfterJob, AfterJobs, Visits, JobSendings, Retiered, FramesOf, EncodeThread.Valid,
         EncodeThread.State, HandedOut, Increasing, RanSoFar;
    for k := 0 to |jobs|
      invariant worker.Valid() && fresh(worker.Repr)
      invariant AfterJobs(jobs[..k]) == worker.State()
      invariant RanSoFar(start, jobs[..k], orders, wires, next)
    {
      var more;
      ghost var order, counter := [], next;
      more, next, order := worker.RunJob(jobs[k], next);
      assert jobs[..k + 1] == jobs[..k] + [jobs[k]];
      OneMoreJob(start, jobs[..k], orders, wires, counter, jobs[k], order);
      wires, orders := wires + more, orders + [order];
    }
    assert jobs[..|jobs|] == jobs;
    RunIsOrdered(start, jobs, orders, wires, next);
  }
}

/** One group's encoder across a whole run of jobs: it lives on between them, so Opus packets pair the captures of the
    jobs that use it. */
module WorkerOpus {
  import opened Words
  import opened OpusFraming
  import opened AudioEncoding
  import opened OpusTiers
  import opened EncodedFields
  import opened EncodeWorker
  import opened WorkerRuns
  import Rates = FrameDurations
  import R = RegistryModel
  import W = Watchdog

  /** The captures that the group's encoder is given, each with its tier. */
  function TurnsOf(jobs: seq<Job>, key: Key): seq<Turn> {
    if jobs == [] then []
    else
      var n := |jobs| - 1;
      TurnsOf(jobs[..n], key)
      + if key in KeysOf(jobs[n].clients) then [Turn(jobs[n].tier, Input(jobs[n].frame, jobs[n].foreign.fixed(key)))]
        else []
  }

  /** The frames that the worker makes for the group, over all jobs that list one of its clients. */
  function SentFor(jobs: seq<Job>, key: Key): seq<EncodedFrame> {
    if jobs == [] then []
    else
      var n := |jobs| - 1;
      SentFor(jobs[..n], key)
      + if key in KeysOf(jobs[n].clients) then FramesOf(Retiered(AfterJobs(jobs[..n]), jobs[n].tier), jobs[n])(key)
        else []
  }

  /** One library answers the group throughout, and can be initialised. */
  ghost predicate OneLibrary(jobs: seq<Job>, key: Key, opus: OpusLibrary) {
    forall j :: 0 <= j < |jobs| ==> jobs[j].foreign.opus(key) == opus && jobs[j].foreign.starts(key)
  }

  /** Equal but for what a tier sets. */
  predicate Alike(a: Encoder, b: Encoder) {
    && a.codec == b.codec && a.rate == b.rate && a.pending == b.pending && a.calls == b.calls
    && a.opus.Some? == b.opus.Some?
  }

  lemma TunedAlike(a: Encoder, b: Encoder, tier: W.Tier, mode: R.AudioMode)
    requires Alike(a, b)
    ensures Tuned(a, tier, mode) == Tuned(b, tier, mode) && Alike(Tuned(a, tier, mode), a)
  {
  }

  /** An encoder that fits its tier is not changed by being tuned for it once more. */
  lemma FitsIsTuned(e: Encoder, key: Key, tier: W.Tier)
    requires Fits(e, key, tier)
    ensures Tuned(e, tier, key.mode) == e
  {
    hide Rates.NormalizeEncoderSampleRate;
  }

  function Start(key: Key): Encoder {
    NewEncoder(key.codec, key.mode, key.rate, true)
  }

  lemma ResampledOnlyForHires(e: Encoder, f: CaptureFrame, mode: R.AudioMode, fixed: seq<real>, resampled: seq<real>,
                              opus: OpusLibrary)
    requires !e.codec.Pcm24?
    ensures EncoderStep(e, f, mode, fixed, resampled, opus) == EncoderStep(e, f, mode, fixed, [], opus)
  {
    hide DrainOpus, Pcm16Frame, Pcm24Frame, BlockOf;
  }

  /** The pool holds the group's encoder once a job used it, as far along as its captures say. */
  ghost predicate Follows(jobs: seq<Job>, key: Key, opus: OpusLibrary) {
    var (e, sent) := EncodeTurns(Start(key), key.mode, TurnsOf(jobs, key), opus);
    var pool := AfterJobs(jobs).encoders;
    && SentFor(jobs, key) == sent
    && (key in pool <==> TurnsOf(jobs, key) != [])
    && (key in pool ==> Alike(pool[key], e))
    && e.codec == key.codec
  }

  /** The encoder that a job finds for the group, tuned for its tier. */
  lemma FoundEncoder(jobs: seq<Job>, job: Job, key: Key, opus: OpusLibrary)
    requires Follows(jobs, key, opus) && job.foreign.starts(key)
    ensures var e := EncodeTurns(Start(key), key.mode, TurnsOf(jobs, key), opus).0;
            EncoderFor(Retiered(AfterJobs(jobs), job.tier), key, job) == Tuned(e, job.tier, key.mode)
  {
    RunFits(jobs);
    var w, e := AfterJobs(jobs), EncodeTurns(Start(key), key.mode, TurnsOf(jobs, key), opus).0;
    if key in w.encoders {
      TunedAlike(w.encoders[key], e, job.tier, key.mode);
      assert Fits(w.encoders[key], key, w.lastTier);
      FitsIsTuned(w.encoders[key], key, w.lastTier);
    }
    hide Tuned, Alike, Fits, AfterJobs, SentFor, NewEncoder;
  }

  lemma TurnsGrow(jobs: seq<Job>, job: Job, key: Key)
    ensures TurnsOf(jobs + [job], key)
         == TurnsOf(jobs, key)
            + if key in KeysOf(job.clients) then [Turn(job.tier, Input(job.frame, job.foreign.fixed(key)))] else []
    ensures SentFor(jobs + [job], key)
         == SentFor(jobs, key)
            + if key in KeysOf(job.clients) then FramesOf(Retiered(AfterJobs(jobs), job.tier), job)(key) else []
    ensures AfterJobs(jobs + [job]) == AfterJob(AfterJobs(jobs), job)
  {
    assert (jobs + [job])[..|jobs|] == jobs;
    hide FramesOf, AfterJob, KeysOf, Retiered;
  }

  lemma PoolAfter(w: Worker, job: Job, key: Key)
    ensures var pool, used := AfterJob(w, job).encoders, key in KeysOf(job.clients);
            && (key in pool <==> key in w.encoders || used)
            && (used ==> pool[key] == Encoding(Retiered(w, job.tier), key, job).0)
            && (!used && key in w.encoders ==> pool[key] == Retiered(w, job.tier)[key])
  {
    hide Encoding, KeysOf, Tuned;
  }

  lemma RetieredAlike(w: Worker, tier: W.Tier, key: Key)
    requires key in w.encoders
    ensures key in Retiered(w, tier) && Alike(Retiered(w, tier)[key], w.encoders[key])
  {
    TunedAlike(w.encoders[key], w.encoders[key], tier, key.mode);
    hide Tuned;
  }

  lemma IdleGroup(jobs: seq<Job>, job: Job, key: Key, opus: OpusLibrary)
    requires Follows(jobs, key, opus) && key !in KeysOf(job.clients)
    ensures Follows(jobs + [job], key, opus)
  {
    TurnsGrow(jobs, job, key);
    PoolAfter(AfterJobs(jobs), job, key);
    if key in AfterJobs(jobs).encoders {
      RetieredAlike(AfterJobs(jobs), job.tier, key);
    }
    assert TurnsOf(jobs + [job], key) == TurnsOf(jobs, key) && SentFor(jobs + [job], key) == SentFor(jobs, key);
    hide TurnsOf, SentFor, EncodeTurns, Encoding, KeysOf, AfterJobs, AfterJob, NewEncoder, Retiered;
  }

  /** What the worker encodes for the group is one more turn of its encoder. */
  lemma EncodingIsTurn(jobs: seq<Job>, job: Job, key: Key, opus: OpusLibrary)
    requires Follows(jobs, key, opus) && !key.codec.Pcm24?
    requires job.foreign.starts(key) && job.foreign.opus(key) == opus
    ensures var turn := Turn(job.tier, Input(job.frame, job.foreign.fixed(key)));
            var (e, sent) := EncodeTurns(Start(key), key.mode, TurnsOf(jobs, key), opus);
            var (after, more) := Encoding(Retiered(AfterJobs(jobs), job.tier), key, job);
            && EncodeTurns(Start(key), key.mode, TurnsOf(jobs, key) + [turn], opus) == (after, sent + more)
            && after.codec == key.codec
  {
    FoundEncoder(jobs, job, key, opus);
    var turns, turn := TurnsOf(jobs, key), Turn(job.tier, Input(job.frame, job.foreign.fixed(key)));
    var tuned := Tuned(EncodeTurns(Start(key), key.mode, turns, opus).0, job.tier, key.mode);
    assert tuned.codec == key.codec;
    ResampledOnlyForHires(tuned, job.frame, key.mode, job.foreign.fixed(key), job.foreign.resampled(key), opus);
    StepKeepsCodec(tuned, job.frame, key.mode, job.foreign.fixed(key), opus);
    assert (turns + [turn])[..|turns|] == turns;
    hide TurnsOf, EncodeTurns, AfterJobs, NewEncoder, Tuned, EncoderFor, Retiered, EncoderStep, Follows;
    OneMoreTurn(Start(key), key.mode, turns + [turn], opus);
  }

  lemma BusyGroup(jobs: seq<Job>, job: Job, key: Key, opus: OpusLibrary)
    requires Follows(jobs, key, opus) && key in KeysOf(job.clients) && !key.codec.Pcm24?
    requires job.foreign.starts(key) && job.foreign.opus(key) == opus
    ensures Follows(jobs + [job], key, opus)
  {
    TurnsGrow(jobs, job, key);
    PoolAfter(AfterJobs(jobs), job, key);
    EncodingIsTurn(jobs, job, key, opus);
    hide TurnsOf, SentFor, EncodeTurns, KeysOf, AfterJobs, AfterJob, NewEncoder, Encoding, Retiered;
  }

  lemma StepKeepsCodec(e: Encoder, f: CaptureFrame, mode: R.AudioMode, fixed: seq<real>, opus: OpusLibrary)
    ensures EncoderStep(e, f, mode, fixed, [], opus).0.codec == e.codec
  {
    hide DrainOpus, Pcm16Frame, Pcm24Frame, BlockOf;
  }

  /** Over any run of jobs and tiers the frames a group gets are those of one encoder, fed with its captures in turn. */
  lemma {:induction false} GroupStream(jobs: seq<Job>, key: Key, opus: OpusLibrary)
    requires OneLibrary(jobs, key, opus) && !key.codec.Pcm24?
    ensures Follows(jobs, key, opus)
  {
    if jobs != [] {
      var n := |jobs| - 1;
      GroupStream(jobs[..n], key, opus);
      hide Follows, KeysOf;
      assert jobs == jobs[..n] + [jobs[n]];
      if key in KeysOf(jobs[n].clients) {
        BusyGroup(jobs[..n], jobs[n], key, opus);
      } else {
        IdleGroup(jobs[..n], jobs[n], key, opus);
      }
    }
  }

  /** Every capture the group is given holds 10 ms of stereo at its encoder's rate. */
  predicate TenEach(jobs: seq<Job>, key: Key) {
    forall j :: 0 <= j < |jobs| && key in KeysOf(jobs[j].clients) ==>
      2 * |jobs[j].foreign.fixed(key)| == SamplesPer20Ms(Start(key).rate)
  }

  lemma {:induction false} TurnsAreTenEach(jobs: seq<Job>, key: Key)
    requires TenEach(jobs, key)
    ensures forall i :: 0 <= i < |TurnsOf(jobs, key)| ==>
              2 * |TurnsOf(jobs, key)[i].input.fixed| == SamplesPer20Ms(Start(key).rate)
  {
    hide KeysOf, SamplesPer20Ms, Start;
    if jobs != [] {
      TurnsAreTenEach(jobs[..|jobs| - 1], key);
    }
  }

  /**
   * From the jobs to the packets: over any run of jobs, with whatever other groups and tiers in between, the k-th Opus
   * packet a group gets is the library's k-th answer. It joins the 2k-th and (2k+1)-th captures outside Red of the
   * jobs that list one of the group's clients.
   */
  lemma OpusGroupCarries(jobs: seq<Job>, key: Key, opus: OpusLibrary, k: nat)
    requires OneLibrary(jobs, key, opus) && NeverFails(opus) && key.codec == R.Opus && TenEach(jobs, key)
    ensures var turns, sent := TurnsOf(jobs, key), OpusOnly(SentFor(jobs, key));
            && |sent| == |Fed(turns)| / 2
            && (k < |sent| ==>
                  var i, j := Fed(turns)[2 * k], Fed(turns)[2 * k + 1];
                  JoinsCaptures(sent[k], turns[i].input, turns[j].input, k, Start(key).rate, opus))
  {
    GroupStream(jobs, key, opus);
    TurnsAreTenEach(jobs, key);
    var rate, settings := Rates.NormalizeEncoderSampleRate(key.rate), ModeSettings(key.mode);
    assert Start(key) == FreshOpus(rate, settings);
    hide TurnsOf, SentFor, OneLibrary, NeverFails, TenEach, Fed, OpusOnly, EncodeTurns, SamplesPer20Ms, JoinsCaptures,
         FreshOpus, AfterJobs, Start;
    TiersCarry(rate, settings, key.mode, TurnsOf(jobs, key), opus, k);
  }
}

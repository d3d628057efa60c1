/** One counter numbers the frames of all groups: what that does to the numbers that one client sees. */
module WorkerNumbers {
  import opened Words
  import opened AudioEncoding
  import opened EncodeWorker
  import opened WorkerRuns
  import DataPlane
  import P = AudioProtocol
  import RegistryInvariants
  import RegistryRuns
  import SessionRegistry
  import R = RegistryModel

  /** Every client of the job has codec PCM16, as every client on LAS1 has. */
  predicate PlainJob(job: Job) {
    forall c :: c in job.clients ==> c.codec == R.Pcm16
  }

  lemma PlainFrame(encoders: Pool, job: Job, key: Key)
    requires PlainJob(job) && key in KeysOf(job.clients) && PoolFits(encoders, job.tier)
    ensures var frames := FramesOf(encoders, job)(key); |frames| == 1 && frames[0].codec == P.Codec.Pcm16
  {
    var c :| c in job.clients && KeyOf(c) == key;
    hide PoolFits, FramesOf, EncoderFor;
    Pcm16Frames(encoders, job, c);
  }

  lemma OneNumber(start: nat, f: EncodedFrame, recipients: seq<R.Snapshot>)
    requires f.codec == P.Codec.Pcm16
    ensures Counter(start, SendingsFor([f], recipients)) == start + 1
  {
    assert SendingsFor([f], recipients) == [] + [Sending(f, recipients)];
    OneMoreSending(start, [], Sending(f, recipients));
    NothingSent(start);
    NumbersPerFrame(start, f, recipients, 1);
    hide Counter, After;
  }

  lemma LastGroup(clients: seq<R.Snapshot>, encode: Key -> seq<EncodedFrame>, order: seq<Key>)
    requires order != []
    ensures var n := |order| - 1;
            JobSendings(clients, encode, order)
              == JobSendings(clients, encode, order[..n]) + SendingsFor(encode(order[n]), Members(clients, order[n]))
  {
  }

  ghost predicate OneFrameEach(encode: Key -> seq<EncodedFrame>, order: seq<Key>) {
    forall k :: 0 <= k < |order| ==> |encode(order[k])| == 1 && encode(order[k])[0].codec == P.Codec.Pcm16
  }

  /** Each group of such a job takes one number. */
  lemma {:induction false} GroupsCount(clients: seq<R.Snapshot>, encode: Key -> seq<EncodedFrame>, order: seq<Key>,
                                       start: nat)
    requires OneFrameEach(encode, order)
    ensures Counter(start, JobSendings(clients, encode, order)) == start + |order|
  {
    if order == [] {
      NothingSent(start);
    } else {
      hide Counter, Members, SendingsFor, JobSendings, Trace;
      var n := |order| - 1;
      var frames, before := encode(order[n]), JobSendings(clients, encode, order[..n]);
      assert frames == [frames[0]];
      GroupsCount(clients, encode, order[..n], start);
      LastGroup(clients, encode, order);
      TraceConcat(start, before, SendingsFor(frames, Members(clients, order[n])));
      OneNumber(start + n, frames[0], Members(clients, order[n]));
    }
  }

  lemma PlainJobCounts(start: nat, earlier: seq<Job>, job: Job, order: seq<Key>)
    requires PlainJob(job) && forall key :: key in order ==> key in KeysOf(job.clients)
    ensures Counter(start, SendingsOf(earlier, job, order)) == start + |order|
  {
    hide PlainJob, KeysOf, FramesOf, PoolFits, Retiered, AfterJobs, Counter, JobSendings;
    ReadyFits(earlier, job);
    var encoders := Retiered(AfterJobs(earlier), job.tier);
    forall k | 0 <= k < |order|
      ensures var frames := FramesOf(encoders, job)(order[k]); |frames| == 1 && frames[0].codec == P.Codec.Pcm16
    {
      PlainFrame(encoders, job, order[k]);
    }
    GroupsCount(job.clients, FramesOf(encoders, job), order, start);
  }

  /** A client's number in such a job is the counter's, plus the place of its group among the groups visited. */
  lemma NumberByPlace(start: nat, earlier: seq<Job>, orders: seq<seq<Key>>, job: Job, order: seq<Key>, c: R.Snapshot,
                      place: nat)
    requires |orders| == |earlier| && HandedOut(job.clients) && Resampled(job) && Visits(job, order) && PlainJob(job)
    requires c in job.clients && place < |order| && order[place] == KeyOf(c)
    ensures var heard := Heard(WiresOf(start, earlier, orders, job, order), c.id);
            |heard| == 1 && heard[0].number == Counter(start, RunSendings(earlier, orders)) + place
  {
    var next := Counter(start, RunSendings(earlier, orders));
    assert c.codec == R.Pcm16;
    var at := Pcm16HeardAt(start, earlier, orders, job, order, c);
    assert at == place by { assert NoRepeats(order); }
    assert forall key :: key in order[..place] ==> key in order;
    hide HandedOut, Heard, WiresOf, Resampled, RunSendings, Counter, SendingsOf, KeyOf, KeysOf, PlainJob;
    PlainJobCounts(next, earlier, job, order[..place]);
  }

  lemma CounterAfterJob(start: nat, earlier: seq<Job>, orders: seq<seq<Key>>, job: Job, order: seq<Key>)
    requires |orders| == |earlier| && Visits(job, order) && PlainJob(job)
    ensures Counter(start, RunSendings(earlier + [job], orders + [order]))
         == Counter(start, RunSendings(earlier, orders)) + |order|
  {
    assert (earlier + [job])[..|earlier|] == earlier && (orders + [order])[..|earlier|] == orders;
    hide Counter, SendingsOf, KeysOf, PlainJob;
    RunGrows(start, earlier + [job], orders + [order]);
    PlainJobCounts(Counter(start, RunSendings(earlier, orders)), earlier, job, order);
  }

  /**
   * From one such job to the next a client's numbers are consecutive exactly when its group comes last in the first
   * job and first in the second; between them lies one number for every group visited in between.
   */
  lemma ConsecutiveExactly(start: nat, earlier: seq<Job>, orders: seq<seq<Key>>, first: Job, firstOrder: seq<Key>,
                           second: Job, secondOrder: seq<Key>, c: R.Snapshot, d: R.Snapshot, p: nat, q: nat)
    requires |orders| == |earlier|
    requires HandedOut(first.clients) && Resampled(first) && Visits(first, firstOrder) && PlainJob(first)
    requires HandedOut(second.clients) && Resampled(second) && Visits(second, secondOrder) && PlainJob(second)
    requires c in first.clients && p < |firstOrder| && firstOrder[p] == KeyOf(c)
    requires d in second.clients && q < |secondOrder| && secondOrder[q] == KeyOf(d) && c.id == d.id
    ensures var a := Heard(WiresOf(start, earlier, orders, first, firstOrder), c.id);
            var b := Heard(WiresOf(start, earlier + [first], orders + [firstOrder], second, secondOrder), c.id);
            && |a| == |b| == 1
            && b[0].number == a[0].number + (|firstOrder| - p) + q
            && (b[0].number == a[0].number + 1 <==> p == |firstOrder| - 1 && q == 0)
  {
    hide HandedOut, Heard, WiresOf, Resampled, RunSendings, Counter, KeyOf, PlainJob, Visits;
    NumberByPlace(start, earlier, orders, first, firstOrder, c, p);
    CounterAfterJob(start, earlier, orders, first, firstOrder);
    NumberByPlace(start, earlier + [first], orders + [firstOrder], second, secondOrder, d, q);
  }

  // Two clients on LAS1 that ask for different sample rates.

  const HIGH := R.Request(0, "high", "first", R.Wifi(1, 1), DataPlane.LegacyLas1, R.Pcm16, R.Balanced, 48000)
  const LOW := R.Request(1, "low", "second", R.Wifi(2, 2), DataPlane.LegacyLas1, R.Pcm16, R.Balanced, 8000)

  function Listed(r: R.Request, ip: nat): R.Snapshot {
    R.Snapshot(r.id, r.name, r.plane, r.codec, r.mode, r.sampleRate, R.ViaWifi(ip, ip), true, false)
  }

  const BOTH := [Listed(HIGH, 1), Listed(LOW, 2)]
  const JOINING := [RegistryInvariants.Join(HIGH, 0, None), RegistryInvariants.Join(LOW, 0, None)]

  lemma Joined(s: R.Registry, r: R.Request, ip: nat)
    requires RegistryInvariants.Negotiated(r) && r.kind == R.Wifi(ip, ip) && r.id !in s.clients && r.id !in s.served
    requires |s.clients| < R.MAX_CLIENTS && forall id :: !R.Replaceable(s, r, id)
    ensures RegistryInvariants.Enabled(s, RegistryInvariants.Join(r, 0, None))
    ensures RegistryInvariants.Apply(s, RegistryInvariants.Join(r, 0, None))
         == s.(gauge := s.gauge + 1,
               clients := s.clients[r.id := R.NewClient(r).(transport := Some(R.ViaWifi(ip, ip)))])
  {
    hide RegistryInvariants.Negotiated, R.Replaceable, R.NewClient;
  }

  lemma Las1IsNegotiated(r: R.Request)
    requires r.plane == DataPlane.LegacyLas1 && r.codec == R.Pcm16
    ensures RegistryInvariants.Negotiated(r)
  {
    assert R.Path(r.plane, r.codec) == R.Negotiate(false, r.plane, r.codec, R.Capabilities(false, false, false));
  }

  /** The registry hands out both after a run in which they join. */
  lemma BothAreHandedOut()
    ensures HandedOut(BOTH)
  {
    var join0, join1 := RegistryInvariants.Join(HIGH, 0, None), RegistryInvariants.Join(LOW, 0, None);
    Las1IsNegotiated(HIGH);
    Las1IsNegotiated(LOW);
    hide RegistryInvariants.Negotiated;
    Joined(R.EMPTY, HIGH, 1);
    var s := RegistryInvariants.Apply(R.EMPTY, join0);
    assert s.clients.Keys == {0};
    assert s.clients[0].key != LOW.key && s.clients[0].name != LOW.name;
    Joined(s, LOW, 2);
    var t := RegistryInvariants.Apply(s, join1);
    RegistryRuns.OneMore(s, join1, []);
    RegistryRuns.OneMore(R.EMPTY, join0, [join1]);
    assert [join1] + [] == [join1] && [join0] + [join1] == JOINING;
    assert t.clients.Keys == {0, 1};
    hide RegistryInvariants.Enabled, RegistryInvariants.Apply, RegistryRuns.Possible, RegistryRuns.Run;
    BothAreListed(t);
    assert RegistryRuns.Possible(R.EMPTY, JOINING) && RegistryRuns.Run(R.EMPTY, JOINING) == t;
  }

  lemma BothAreListed(t: R.Registry)
    requires t.clients.Keys == {0, 1}
    requires t.clients[0] == R.NewClient(HIGH).(transport := Some(R.ViaWifi(1, 1)))
    requires t.clients[1] == R.NewClient(LOW).(transport := Some(R.ViaWifi(2, 2)))
    ensures SessionRegistry.Lists(BOTH, R.Snapshots(t), R.Reachable(t))
  {
    assert R.Reachable(t) == {0, 1};
    assert BOTH[0].id == 0 && BOTH[1].id == 1;
  }

  lemma Differ(order: seq<Key>, j: nat, k: nat)
    requires NoRepeats(order) && j < k < |order|
    ensures order[j] != order[k]
  {
  }

  lemma AtMostTwo(order: seq<Key>, a: Key, b: Key)
    requires NoRepeats(order) && forall k :: 0 <= k < |order| ==> order[k] == a || order[k] == b
    ensures |order| <= 2
  {
    hide NoRepeats;
    if |order| > 2 {
      Differ(order, 0, 1);
      Differ(order, 0, 2);
      Differ(order, 1, 2);
    }
  }

  lemma TwoGroups(job: Job, order: seq<Key>)
    requires job.clients == BOTH && Visits(job, order)
    ensures |order| == 2 && PlainJob(job)
  {
    var high, low := KeyOf(BOTH[0]), KeyOf(BOTH[1]);
    assert high.rate == 48000 && low.rate == 8000;
    hide KeyOf;
    assert KeysOf(BOTH) == {high, low};
    assert high in order && low in order;
    forall k | 0 <= k < |order| ensures order[k] == high || order[k] == low {
      assert order[k] in order;
    }
    AtMostTwo(order, high, low);
  }

  /** Two jobs alike, encoded alike: each of the two clients skips one number, the one of the other client's group. */
  lemma OtherGroupLeavesAGap(start: nat, job: Job, order: seq<Key>, c: R.Snapshot)
    requires job.clients == BOTH && Resampled(job) && Visits(job, order) && c in BOTH
    ensures HandedOut(job.clients)
    ensures var a := Heard(WiresOf(start, [], [], job, order), c.id);
            var b := Heard(WiresOf(start, [job], [order], job, order), c.id);
            |a| == |b| == 1 && b[0].number == a[0].number + 2
  {
    BothAreHandedOut();
    TwoGroups(job, order);
    assert KeyOf(c) in KeysOf(job.clients);
    var p :| 0 <= p < |order| && order[p] == KeyOf(c);
    hide HandedOut, Heard, WiresOf, Resampled, KeyOf, PlainJob, Visits;
    ConsecutiveExactly(start, [], [], job, order, job, order, c, c, p, p);
    assert [] + [job] == [job] && [] + [order] == [order];
  }
}

/** Every interleaving of the ring keeps it a first-in first-out queue. */
module PcmRingRuns {
  import opened Words
  import opened PcmRing

  // ---- producer steps ----

  lemma ProducerDecides(s: Ring)
    requires Inv(s) && s.producer.PLoadedRead?
    ensures Inv(StepProducer(s))
  {
    var seen := s.producer.seen;
    DistanceIsFill(Written(s), seen);
    hide SlotOf, ToU64, Stored;
  }

  lemma CopyInSlot(s: Ring)
    requires Inv(s) && s.producer.PCopying? && s.producer.done < |s.producer.data|
    ensures SlotOf(s.writePos, Frames(s.producer.data), s.producer.done) == (|s.pushed| + s.producer.done) % SLOTS
  {
    hide SlotOf, ToU64;
    SlotOfIndex(Written(s), Frames(s.producer.data), s.producer.done);
    assert CHANNELS * Written(s) == |s.pushed|;
  }

  lemma OtherSlotStays(buffer: seq<int>, i: nat, j: nat, v: int)
    requires |buffer| == SLOTS && i < j < i + SLOTS
    ensures buffer[j % SLOTS := v][i % SLOTS] == buffer[i % SLOTS]
  {
    DistinctSlots(i, j);
  }

  /** Storing one sample behind the published ones disturbs neither them nor the samples already staged. */
  lemma StoringKeeps(s: Ring, v: int)
    requires Inv(s) && s.producer.PCopying? && s.producer.done < |s.producer.data|
    ensures var b := s.buffer[(|s.pushed| + s.producer.done) % SLOTS := v];
            && (forall i :: |s.pulled| <= i < |s.pushed| ==> b[i % SLOTS] == s.pushed[i])
            && forall k :: 0 <= k < s.producer.done ==> b[(|s.pushed| + k) % SLOTS] == s.producer.data[k]
  {
    hide ToU64, ConsumerOk;
    var at := |s.pushed| + s.producer.done;
    forall i | |s.pulled| <= i < at
      ensures s.buffer[at % SLOTS := v][i % SLOTS] == s.buffer[i % SLOTS]
    {
      OtherSlotStays(s.buffer, i, at, v);
    }
  }

  lemma ProducerCopies(s: Ring)
    requires Inv(s) && s.producer.PCopying? && s.producer.done < |s.producer.data|
    ensures Inv(StepProducer(s))
  {
    hide SlotOf, ToU64;
    CopyInSlot(s);
    StoringKeeps(s, s.producer.data[s.producer.done]);
  }

  lemma ProducerPublishes(s: Ring)
    requires Inv(s) && s.producer.PCopying? && s.producer.done == |s.producer.data|
    ensures Inv(StepProducer(s))
  {
    var data := s.producer.data;
    var n := StepProducer(s);
    assert Written(n) == Written(s) + Frames(data);
    WrappedSum(Written(s), Frames(data));
    hide SlotOf, ToU64;
    forall i | |n.pulled| <= i < |n.pushed|
      ensures n.buffer[i % SLOTS] == n.pushed[i]
    {
      if i >= |s.pushed| {
        assert s.buffer[(|s.pushed| + (i - |s.pushed|)) % SLOTS] == data[i - |s.pushed|];
      }
    }
  }

  lemma WrappedSum(a: nat, b: nat)
    ensures ToU64(ToU64(a) + b) == ToU64(a + b)
  {
  }

  lemma ProducerKeeps(s: Ring)
    requires Inv(s)
    ensures Inv(StepProducer(s))
  {
    match s.producer
    case PLoadedRead(_, _, _, _) => ProducerDecides(s);
    case PCopying(data, _, done) =>
      if done < |data| {
        ProducerCopies(s);
      } else {
        ProducerPublishes(s);
      }
    case _ => hide SlotOf, ToU64;
  }

  // ---- consumer steps ----

  lemma ConsumerDecides(s: Ring)
    requires Inv(s) && s.consumer.CLoadedWrite?
    ensures Inv(StepConsumer(s))
  {
    DistanceIsFill(s.consumer.seen, Read(s));
    hide SlotOf, ToU64, Stored, Distance64;
  }

  lemma CopyOutSlot(s: Ring)
    requires Inv(s) && s.consumer.CCopying? && |s.consumer.out| < CHANNELS * s.consumer.frames
    ensures SlotOf(s.readPos, s.consumer.frames, |s.consumer.out|) == (|s.pulled| + |s.consumer.out|) % SLOTS
  {
    hide SlotOf, ToU64;
    SlotOfIndex(Read(s), s.consumer.frames, |s.consumer.out|);
    assert CHANNELS * Read(s) == |s.pulled|;
  }

  lemma ConsumerCopies(s: Ring)
    requires Inv(s) && s.consumer.CCopying? && |s.consumer.out| < CHANNELS * s.consumer.frames
    ensures Inv(StepConsumer(s))
  {
    hide SlotOf, ToU64;
    CopyOutSlot(s);
    var at := |s.pulled| + |s.consumer.out|;
    assert s.buffer[at % SLOTS] == s.pushed[at];
  }

  lemma ConsumerReleases(s: Ring)
    requires Inv(s) && s.consumer.CCopying? && |s.consumer.out| == CHANNELS * s.consumer.frames
    ensures Inv(StepConsumer(s))
  {
    var n := StepConsumer(s);
    assert Read(n) == Read(s) + s.consumer.frames;
    WrappedSum(Read(s), s.consumer.frames);
    hide SlotOf, ToU64;
  }

  lemma ConsumerKeeps(s: Ring)
    requires Inv(s)
    ensures Inv(StepConsumer(s))
  {
    match s.consumer
    case CLoadedWrite(_, _, _, _) => ConsumerDecides(s);
    case CCopying(_, frames, out) =>
      if |out| < CHANNELS * frames {
        ConsumerCopies(s);
      } else {
        ConsumerReleases(s);
      }
    case _ => hide SlotOf, ToU64;
  }

  // ---- every interleaving ----

  lemma NextKeeps(s: Ring, a: Action)
    requires Inv(s)
    ensures Inv(Next(s, a))
  {
    match a
    case ProducerStep => ProducerKeeps(s);
    case ConsumerStep => ConsumerKeeps(s);
    case PushCall(data) => hide SlotOf, ToU64, Stored, ConsumerOk, StepProducer, StepConsumer;
    case PullCall(frames) => hide SlotOf, ToU64, Stored, ProducerOk, StepProducer, StepConsumer;
  }

  lemma {:induction false} RunKeeps(s: Ring, actions: seq<Action>)
    requires Inv(s)
    ensures Inv(Run(s, actions))
    decreases |actions|
  {
    assert |s.buffer| == SLOTS;
    hide Inv, Next;
    if actions != [] {
      NextKeeps(s, actions[0]);
      RunKeeps(Next(s, actions[0]), actions[1..]);
    }
  }

  lemma EmptyHolds()
    ensures Inv(EMPTY)
  {
  }

  /** The samples between the two threads, oldest first. */
  function Queue(s: Ring): seq<int>
    requires |s.pulled| <= |s.pushed|
  {
    s.pushed[|s.pulled|..]
  }

  /** In every state of every interleaving: between 0 and 8192 frames are stored; what was handed out,
      followed by what is stored, is what was published, in order; and each stored sample stands in
      the slot of its index. */
  lemma RingIsFifo(actions: seq<Action>)
    ensures var s := Run(EMPTY, actions);
            && 0 <= Fill(s) <= CAPACITY_FRAMES
            && |s.pulled| <= |s.pushed|
            && s.pulled + Queue(s) == s.pushed
            && (forall i :: |s.pulled| <= i < |s.pushed| ==> s.buffer[i % SLOTS] == s.pushed[i])
  {
    EmptyHolds();
    RunKeeps(EMPTY, actions);
    hide Run;
  }

  predicate Publishes(s: Ring, a: Action) {
    a.ProducerStep? && s.producer.PCopying? && s.producer.done == |s.producer.data|
  }

  predicate Releases(s: Ring, a: Action) {
    a.ConsumerStep? && s.consumer.CCopying? && |s.consumer.out| == CHANNELS * s.consumer.frames
  }

  /** Two kinds of step change the queue: publishing appends one whole block, releasing hands out a
      prefix and takes exactly that prefix away. No other step changes it. */
  lemma StepsAreQueueOperations(s: Ring, a: Action)
    requires Inv(s)
    ensures var n := Next(s, a);
            |n.pulled| <= |n.pushed| &&
            if Publishes(s, a) then
              n.pulled == s.pulled && Queue(n) == Queue(s) + s.producer.data && n.producer.PIdle?
            else if Releases(s, a) then
              && |s.consumer.out| <= |Queue(s)|
              && s.consumer.out == Queue(s)[..|s.consumer.out|]
              && n.pulled == s.pulled + s.consumer.out
              && Queue(n) == Queue(s)[|s.consumer.out|..]
              && n.consumer.CIdle?
            else
              n.pulled == s.pulled && Queue(n) == Queue(s)
  {
    hide SlotOf, ToU64, Stored;
    NextPositions(s, a);
  }

  lemma NextPositions(s: Ring, a: Action)
    requires Inv(s)
    ensures Positions(Next(s, a))
  {
    NextKeeps(s, a);
  }

  /** push is all or nothing: it gives up exactly when the block did not fit beside the frames stored
      at the moment it read the other position, and otherwise the block still fits now. */
  lemma PushDecision(s: Ring)
    requires Inv(s) && s.producer.PLoadedRead?
    ensures StepProducer(s).producer.PIdle? <==>
              Written(s) - s.producer.seen + Frames(s.producer.data) > CAPACITY_FRAMES
    ensures StepProducer(s).producer.PIdle? || StepProducer(s).producer == PCopying(s.producer.data, s.writePos, 0)
    ensures StepProducer(s).pushed == s.pushed
  {
    DistanceIsFill(Written(s), s.producer.seen);
  }

  /** pull settles on the longest prefix available at the moment it read the other position. */
  lemma PullDecision(s: Ring)
    requires Inv(s) && s.consumer.CLoadedWrite?
    ensures var count := Min(s.consumer.seen - Read(s), s.consumer.wanted);
            StepConsumer(s).consumer == if count == 0 then CIdle else CCopying(s.readPos, count, [])
  {
    DistanceIsFill(s.consumer.seen, Read(s));
  }

  /** The two loaded counts are the true ones at the moment of the load. */
  lemma LoadsAreTrue(s: Ring)
    requires Inv(s)
    ensures s.producer.PLoadedWrite? ==> StepProducer(s).producer.seen == Read(s)
    ensures s.consumer.CLoadedRead? ==> StepConsumer(s).consumer.seen == Written(s)
  {
  }

  /** No slot is written while it is read: the slots of a block being copied in are disjoint from the
      slots of the prefix being copied out. */
  lemma CopiesNeverOverlap(s: Ring, i: nat, j: nat)
    requires Inv(s) && s.producer.PCopying? && s.consumer.CCopying?
    requires i < |s.producer.data| && j < CHANNELS * s.consumer.frames
    ensures SlotOf(s.writePos, Frames(s.producer.data), i) != SlotOf(s.readPos, s.consumer.frames, j)
  {
    hide SlotOf, ToU64, Stored;
    SlotOfIndex(Written(s), Frames(s.producer.data), i);
    SlotOfIndex(Read(s), s.consumer.frames, j);
    assert CHANNELS * Written(s) == |s.pushed| && CHANNELS * Read(s) == |s.pulled|;
    DistinctSlots(|s.pulled| + j, |s.pushed| + i);
  }

  // ---- the level meter ----

  lemma {:induction false} CountsGrow(s: Ring, actions: seq<Action>)
    requires Inv(s)
    ensures Written(s) <= Written(Run(s, actions)) && Read(s) <= Read(Run(s, actions))
    decreases |actions|
  {
    assert |s.buffer| == SLOTS;
    hide Inv, Next, Frames;
    if actions != [] {
      NextKeeps(s, actions[0]);
      NextGrows(s, actions[0]);
      CountsGrow(Next(s, actions[0]), actions[1..]);
    }
  }

  lemma NextGrows(s: Ring, a: Action)
    requires Inv(s)
    ensures Written(s) <= Written(Next(s, a)) && Read(s) <= Read(Next(s, a))
  {
    hide SlotOf, ToU64, Stored;
  }

  /** availableFrames reads the two positions one after the other, with steps of both threads between.
      The level it reports is never below the level at the second load, and exceeds it by what was
      pulled in between. */
  lemma LevelNeverUnderstates(s: Ring, actions: seq<Action>)
    requires Inv(s)
    ensures var t := Run(s, actions);
            && Written(t) - Read(s) == Fill(t) + (Read(t) - Read(s))
            && Fill(t) <= Written(t) - Read(s)
            && (Written(t) - Read(s) < TWO_64 ==> Distance64(t.writePos, s.readPos) == Written(t) - Read(s))
  {
    CountsGrow(s, actions);
    RunKeeps(s, actions);
    var t := Run(s, actions);
    hide Run, Stored, SlotOf, ProducerOk, ConsumerOk;
    if Written(t) - Read(s) < TWO_64 {
      DistanceIsFill(Written(t), Read(s));
    }
  }
}

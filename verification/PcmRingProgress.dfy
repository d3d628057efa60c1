/** The ring is wait-free: whatever the other thread does, each call returns after a bounded number of its own steps. */
module PcmRingProgress {
  import opened Words
  import opened PcmRing
  import opened PcmRingRuns

  /** Steps that the producer still takes at most until its call returns. */
  function PushWork(p: Producer): int {
    match p
    case PIdle => 0
    case PEntered(data) => |data| + 4
    case PLoadedWrite(data, _) => |data| + 3
    case PLoadedRead(data, _, _, _) => |data| + 2
    case PCopying(data, _, done) => |data| - done + 1
  }

  /** The same for the consumer, which copies at most a ring's worth of 16384 samples. */
  function PullWork(c: Consumer): int {
    match c
    case CIdle => 0
    case CEntered(wanted) => 2 * Min(wanted, 8192) + 4
    case CLoadedRead(wanted, _) => 2 * Min(wanted, 8192) + 3
    case CLoadedWrite(wanted, _, _, _) => 2 * Min(wanted, 8192) + 2
    case CCopying(_, frames, out) => 2 * frames - |out| + 1
  }

  /** A call starts at an idle thread, for whole frames that fit the ring; nothing else starts one. */
  lemma CallsStart(s: Ring, data: seq<int>, frames: int)
    requires Inv(s)
    ensures Next(s, PushCall(data)) ==
              if s.producer == PIdle && |data| % 2 == 0 && 2 <= |data| <= 16384 then s.(producer := PEntered(data))
              else s
    ensures Next(s, PullCall(frames)) ==
              if s.consumer == CIdle && frames >= 1 then s.(consumer := CEntered(frames)) else s
  {
  }

  /** Every step of a call brings it nearer to its return, and an idle thread's step does nothing. */
  lemma PushAdvances(s: Ring)
    requires Inv(s)
    ensures PushWork(s.producer) >= 0 && (PushWork(s.producer) == 0 <==> s.producer == PIdle)
    ensures s.producer == PIdle ==> StepProducer(s) == s
    ensures s.producer != PIdle ==>
              var p := StepProducer(s).producer; p == PIdle || PushWork(p) == PushWork(s.producer) - 1
    ensures StepProducer(s).consumer == s.consumer
  {
    if s.producer.PCopying? && s.producer.done < |s.producer.data| {
      CopyInSlot(s);
    }
    hide SlotOf, Distance64, Stored, ConsumerOk;
  }

  lemma PullAdvances(s: Ring)
    requires Inv(s)
    ensures PullWork(s.consumer) >= 0 && (PullWork(s.consumer) == 0 <==> s.consumer == CIdle)
    ensures s.consumer == CIdle ==> StepConsumer(s) == s
    ensures s.consumer != CIdle ==>
              var c := StepConsumer(s).consumer; c == CIdle || PullWork(c) <= PullWork(s.consumer) - 1
    ensures StepConsumer(s).producer == s.producer
  {
    if s.consumer.CCopying? && |s.consumer.out| < CHANNELS * s.consumer.frames {
      CopyOutSlot(s);
    }
    if s.consumer.CLoadedWrite? {
      DistanceIsFill(s.consumer.seen, Read(s));
    }
    hide SlotOf, Distance64, Stored, ProducerOk;
  }

  /** Steps of one thread in an interleaving. */
  function Steps(actions: seq<Action>, step: Action): nat {
    if actions == [] then 0 else (if actions[0] == step then 1 else 0) + Steps(actions[1..], step)
  }

  /** The call is over at some point of the interleaving. */
  predicate PushReturns(s: Ring, actions: seq<Action>)
    requires |s.buffer| == SLOTS
    decreases |actions|
  {
    s.producer == PIdle || (actions != [] && PushReturns(Next(s, actions[0]), actions[1..]))
  }

  predicate PullReturns(s: Ring, actions: seq<Action>)
    requires |s.buffer| == SLOTS
    decreases |actions|
  {
    s.consumer == CIdle || (actions != [] && PullReturns(Next(s, actions[0]), actions[1..]))
  }

  /** Whatever the interleaving, a push returns once its thread has taken as many steps as it has work left. */
  lemma {:induction false} PushIsWaitFree(s: Ring, actions: seq<Action>)
    requires Inv(s) && Steps(actions, ProducerStep) >= PushWork(s.producer)
    ensures PushReturns(s, actions)
    decreases |actions|
  {
    PushAdvances(s);
    PullAdvances(s);
    if s.producer != PIdle {
      NextKeeps(s, actions[0]);
      hide Inv, StepProducer, StepConsumer;
      if Next(s, actions[0]).producer != PIdle {
        PushIsWaitFree(Next(s, actions[0]), actions[1..]);
      }
    }
  }

  lemma {:induction false} PullIsWaitFree(s: Ring, actions: seq<Action>)
    requires Inv(s) && Steps(actions, ConsumerStep) >= PullWork(s.consumer)
    ensures PullReturns(s, actions)
    decreases |actions|
  {
    PushAdvances(s);
    PullAdvances(s);
    if s.consumer != CIdle {
      NextKeeps(s, actions[0]);
      hide Inv, StepProducer, StepConsumer;
      if Next(s, actions[0]).consumer != CIdle {
        PullIsWaitFree(Next(s, actions[0]), actions[1..]);
      }
    }
  }

  /** From any state any interleaving reaches: a call that is under way is over after 16388 steps of its own thread. */
  lemma WaitFree(before: seq<Action>, actions: seq<Action>)
    ensures var s := Run(EMPTY, before);
            && (Steps(actions, ProducerStep) >= 16388 ==> PushReturns(s, actions))
            && (Steps(actions, ConsumerStep) >= 16388 ==> PullReturns(s, actions))
  {
    assert Inv(EMPTY);
    RunKeeps(EMPTY, before);
    var s := Run(EMPTY, before);
    WorkIsBounded(s);
    hide Inv, Run;
    if Steps(actions, ProducerStep) >= 16388 {
      PushIsWaitFree(s, actions);
    }
    if Steps(actions, ConsumerStep) >= 16388 {
      PullIsWaitFree(s, actions);
    }
  }

  lemma WorkIsBounded(s: Ring)
    requires Inv(s)
    ensures PushWork(s.producer) <= 16388 && PullWork(s.consumer) <= 16388
  {
    hide Stored, SlotOf, Distance64;
  }
}

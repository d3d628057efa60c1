/** The jitter buffer as it runs: wrapping 32-bit sequences in a map sorted by serial comparison,
    updated in place. Ghost fields carry the unbounded numbers; every method is proved to do to them
    what the model does. */
module PlaybackJitterBuffer {
  import opened Words
  import opened SerialNumbers
  import opened JitterModel
  import opened JitterInvariants
  import opened SortedFrames
  import opened LasPackets

  class PlaybackJitterBuffer {
    var startBufferMs: int
    var maxBufferMs: int
    var dropThresholdMs: int
    var frames: seq<PcmFrame>
    var playoutStarted: bool
    var expectedSequence: Option<int32>
    var frameDurationMs: pos
    var overflowSinceMs: int
    var stats: Stats

    /** The buffer over unbounded numbers that this object stands for. */
    ghost var model: Buffer

    ghost predicate Valid()
      reads this
    {
      && model.config == Config(startBufferMs, maxBufferMs, dropThresholdMs)
      && Tracks(frames, model.held)
      && playoutStarted == model.started
      && expectedSequence == Wrapped(model.expected)
      && frameDurationMs == model.durationMs
      && overflowSinceMs == model.overflowSinceMs
      && stats == model.stats
      && Inv(model)
    }

    constructor (startBufferMs: int, maxBufferMs: int, dropThresholdMs: int)
      ensures Valid() && model == Fresh(Config(startBufferMs, maxBufferMs, dropThresholdMs))
    {
      this.startBufferMs, this.maxBufferMs, this.dropThresholdMs := startBufferMs, maxBufferMs, dropThresholdMs;
      frames, playoutStarted, expectedSequence := [], false, None;
      frameDurationMs, overflowSinceMs := 10, 0;
      stats := Stats(0, 0, 0, 0, 0);
      model := Fresh(Config(startBufferMs, maxBufferMs, dropThresholdMs));
      FreshHolds(Config(startBufferMs, maxBufferMs, dropThresholdMs));
    }

    method Clear()
      requires Valid()
      modifies this
      ensures Valid() && model == JitterModel.Clear(old(model))
    {
      FreshHolds(model.config);
      hide Inv;
      frames, playoutStarted, expectedSequence := [], false, None;
      frameDurationMs, overflowSinceMs := 10, 0;
      stats := Stats(0, 0, 0, 0, 0);
      model := JitterModel.Clear(model);
    }

    method Reconfigure(startMs: int, maxMs: int, dropMs: int, now: int)
      requires Valid()
      modifies this
      ensures Valid() && model == JitterModel.Reconfigure(old(model), startMs, maxMs, dropMs, now)
    {
      hide Inv, Tracks, JitterModel.Trim;
      SameCore(model, model.(config := Reconfigured(startMs, maxMs, dropMs)));
      startBufferMs := Max(startMs, 1);
      maxBufferMs := Max(maxMs, startBufferMs);
      dropThresholdMs := Max(dropMs, startBufferMs);
      model := model.(config := Reconfigured(startMs, maxMs, dropMs));
      Trim(now);
    }

    /** The two trims and the frame counter, as push and reconfigure end. */
    method Trim(now: int)
      requires Valid()
      modifies this
      ensures Valid() && model == JitterModel.Trim(old(model), now)
    {
      hide Valid, TrimSize, TrimLatency, Counted;
      TrimIfNeeded();
      TrimLatencyTailIfNeeded(now);
      PublishCount();
    }

    method PublishCount()
      requires Valid()
      modifies this`stats, this`model
      ensures Valid() && model == Counted(old(model))
    {
      SameCore(model, Counted(model));
      assert |frames| == |model.held|;
      hide Inv, Tracks;
      stats := stats.(bufferedFrames := |frames|);
      model := Counted(model);
    }

    /** Sizes and flags of the fields and of the model agree. */
    lemma Agrees()
      requires Valid()
      ensures |frames| == |model.held| && expectedSequence == Wrapped(model.expected)
      ensures playoutStarted == model.started && frameDurationMs == model.durationMs
      ensures model.config == Config(startBufferMs, maxBufferMs, dropThresholdMs)
    {
    }

    /** The fields mirror the model. */
    lemma Mirrors()
      requires Valid()
      ensures |frames| == |model.held| && expectedSequence == Wrapped(model.expected)
      ensures playoutStarted == model.started && frameDurationMs == model.durationMs
      ensures model.config == Config(startBufferMs, maxBufferMs, dropThresholdMs)
      ensures forall i :: 0 <= i < |frames| ==>
                frames[i] == model.held[i].frame && frames[i].sequence == ToInt32(model.held[i].num)
    {
    }

    method TrimIfNeeded()
      requires Valid()
      modifies this`frames, this`stats, this`model
      ensures Valid() && model == TrimSize(old(model)) && |frames| == |model.held|
    {
      var maxFrames := Clamp(CeilDiv(maxBufferMs, frameDurationMs), MIN_FRAMES, JitterModel.MAX_FRAMES);
      EvictDown(maxFrames);
    }

    method TrimLatencyTailIfNeeded(now: int)
      requires Valid()
      modifies this`frames, this`stats, this`model, this`overflowSinceMs, this`expectedSequence
      ensures Valid() && model == TrimLatency(old(model), now) && |frames| == |model.held|
    {
      assert |frames| == |model.held|;
      hide Inv, Tracks, EvictTo, CatchUp;
      var thresholdFrames := Max(CeilDiv(dropThresholdMs, frameDurationMs), 1);
      if |frames| <= thresholdFrames {
        SetOverflowSince(0);
        return;
      }
      if overflowSinceMs == 0 {
        SetOverflowSince(now);
        return;
      }
      if now - overflowSinceMs < TRIM_OBSERVE_WINDOW_MS {
        return;
      }
      EvictFrame(model, thresholdFrames);
      EvictDown(thresholdFrames);
      SetOverflowSince(0);
      CatchUpToOldest();
    }

    method SetOverflowSince(ms: int)
      requires Valid()
      modifies this`overflowSinceMs, this`model
      ensures Valid() && model == old(model).(overflowSinceMs := ms)
    {
      SameCore(model, model.(overflowSinceMs := ms));
      hide Inv, Tracks;
      overflowSinceMs := ms;
      model := model.(overflowSinceMs := ms);
    }

    /** Moves the expected number up to the oldest frame, if it is unset or behind. */
    method CatchUpToOldest()
      requires Valid() && frames != []
      modifies this`expectedSequence, this`model
      ensures Valid() && model == CatchUp(old(model))
    {
      CatchUpKeeps(model);
      OldestAgainstExpected(model, frames);
      hide Inv, Tracks, IsOlder, ToInt32;
      var oldest := frames[0].sequence;
      if expectedSequence.None? || IsOlder(expectedSequence.value, oldest) {
        expectedSequence := Some(oldest);
      }
      model := CatchUp(model);
    }

    /** Evicts the oldest frame. */
    method PollFirst()
      requires Valid() && frames != []
      modifies this`frames, this`stats, this`model
      ensures Valid() && model == EvictTo(old(model), |old(model).held| - 1)
      ensures |frames| == |model.held| == |old(frames)| - 1
    {
      TracksRest(frames, model.held);
      EvictKeeps(model, |model.held| - 1);
      hide Inv, Tracks;
      frames := frames[1..];
      stats := stats.(dropped := stats.dropped + 1);
      model := EvictTo(model, |model.held| - 1);
    }

    method EvictDown(limit: nat)
      requires Valid()
      modifies this`frames, this`stats, this`model
      ensures Valid() && model == EvictTo(old(model), limit) && |frames| == |model.held|
    {
      Mirrors();
      hide Valid, EvictTo;
      while |frames| > limit
        invariant Valid() && |frames| == |model.held|
        invariant EvictTo(model, limit) == EvictTo(old(model), limit)
      {
        EvictTwice(model, |model.held| - 1, limit);
        PollFirst();
      }
      EvictNothing(model, limit);
    }

    /** Polls the oldest frame the given number of times, or until none is left. */
    method PollRepeatedly(times: nat) returns (dropped: nat)
      requires Valid()
      modifies this`frames, this`stats, this`model
      ensures Valid() && dropped == Min(times, |old(model).held|)
      ensures model == EvictTo(old(model), |old(model).held| - dropped) && |frames| == |model.held|
    {
      Mirrors();
      hide Valid, EvictTo;
      ghost var before := model;
      dropped := 0;
      EvictNothing(before, |before.held|);
      for i := 0 to times
        invariant Valid() && |frames| == |model.held| == |before.held| - dropped
        invariant dropped == Min(i, |before.held|)
        invariant model == EvictTo(before, |before.held| - dropped)
      {
        if frames != [] {
          EvictTwice(before, |model.held|, |model.held| - 1);
          PollFirst();
          dropped := dropped + 1;
        }
      }
    }

    method Push(packet: LasPacket, ghost num: int, now: int)
      requires Valid()
      requires packet.sequence == ToInt32(num) && Window(model, num)
      modifies this
      ensures Valid()
      ensures model == JitterModel.Push(old(model), Numbered(num, FrameOf(packet)), packet.FrameDurationMs(), now)
    {
      Mirrors();
      PushPosition(model, frames, Numbered(num, FrameOf(packet)));
      PushCases(model, Numbered(num, FrameOf(packet)), packet.FrameDurationMs(), now);
      hide Valid, JitterModel.Push, JitterModel.Trim, LasPacket.FrameDurationMs, Holds, ContainsKey, IsOlder, Window;
      hide Insert, Rejected, Inserted, Put;
      var duration := EffectiveDuration(packet.FrameDurationMs());
      var frame := PcmFrame(packet.sequence, packet.payload, packet.sampleRate, packet.channels, duration);
      if ContainsKey(frames, frame.sequence) {
        Reject(duration, true);
        return;
      }
      if expectedSequence.Some? && IsOlder(frame.sequence, expectedSequence.value) {
        Reject(duration, false);
        return;
      }
      Accept(frame, num, duration);
      Trim(now);
    }

    /** A frame that is already buffered, or late, is only counted; its duration still applies. */
    method Reject(duration: pos, duplicate: bool)
      requires Valid()
      modifies this`frameDurationMs, this`stats, this`model
      ensures Valid() && model == Rejected(old(model), duration, duplicate)
    {
      RejectKeeps(model, Rejected(model, duration, duplicate));
      hide Inv, Tracks;
      frameDurationMs := duration;
      if duplicate {
        stats := stats.(dropped := stats.dropped + 1);
      } else {
        stats := stats.(late := stats.late + 1);
      }
      model := Rejected(model, duration, duplicate);
    }

    method Accept(frame: PcmFrame, ghost num: int, duration: pos)
      requires Valid() && Window(model, num) && !Holds(model.held, num)
      requires model.expected.Some? ==> model.expected.value <= num
      requires frame.sequence == ToInt32(num)
      modifies this`frameDurationMs, this`frames, this`model
      ensures Valid() && model == Inserted(old(model), Numbered(num, frame), duration)
    {
      PushPosition(model, frames, Numbered(num, frame));
      AcceptKeeps(model, Numbered(num, frame), Inserted(model, Numbered(num, frame), duration));
      hide Inv, Tracks, Put, Insert, Window, Holds;
      frameDurationMs := duration;
      frames := Put(frames, frame);
      model := Inserted(model, Numbered(num, frame), duration);
    }

    method Pop(usbLowLatencyHardFloor: bool) returns (r: PopOutcome)
      requires Valid()
      modifies this
      ensures Valid()
      ensures (model, r) == JitterModel.Pop(old(model), usbLowLatencyHardFloor)
    {
      Mirrors();
      hide Valid, JitterModel.PopStarted, Counted;
      if !playoutStarted {
        var startFrames := CeilDiv(startBufferMs, frameDurationMs);
        if |frames| < startFrames {
          PublishCount();
          return Nothing;
        }
        if frames == [] {
          MarkStarted();
          return NoSuchElement;
        }
        BeginPlayout();
      }
      r := PopStarted(usbLowLatencyHardFloor);
    }

    method MarkStarted()
      requires Valid()
      modifies this`playoutStarted, this`model
      ensures Valid() && model == old(model).(started := true)
    {
      SameCore(model, model.(started := true));
      hide Inv, Tracks;
      playoutStarted := true;
      model := model.(started := true);
    }

    method BeginPlayout()
      requires Valid() && frames != []
      modifies this`playoutStarted, this`expectedSequence, this`model
      ensures Valid() && |model.held| > 0 && old(model).held != [] && model == Start(old(model))
    {
      Mirrors();
      StartKeeps(model);
      hide Inv, Tracks, ToInt32;
      playoutStarted := true;
      expectedSequence := Some(frames[0].sequence);
      model := Start(model);
    }

    method PopStarted(usbLowLatencyHardFloor: bool) returns (r: PopOutcome)
      requires Valid()
      modifies this
      ensures Valid()
      ensures (model, r) == JitterModel.PopStarted(old(model), usbLowLatencyHardFloor)
    {
      Agrees();
      hide Valid, JitterModel.PopExpected, Counted;
      if usbLowLatencyHardFloor && BufferedMs() <= HARD_FLOOR_MS {
        CountFloorHold();
        PublishCount();
        return Nothing;
      }
      r := PopExpected();
    }

    method PopExpected() returns (r: PopOutcome)
      requires Valid()
      modifies this
      ensures Valid()
      ensures (model, r) == JitterModel.PopExpected(old(model))
    {
      Agrees();
      hide Valid, Deliver, JitterModel.Underrun;
      if expectedSequence.None? {
        return Nothing;
      }
      var found := TakeSought();
      if found.Some? {
        return Popped(found.value);
      }
      r := PopPastGap();
    }

    /** The expected frame is missing: skip to the oldest one, or report an underrun. */
    method PopPastGap() returns (r: PopOutcome)
      requires Valid() && expectedSequence.Some?
      modifies this
      ensures Valid()
      ensures (model, r) == JitterModel.PopExpected(old(model))
    {
      Agrees();
      hide Valid, Deliver, JitterModel.Underrun;
      if frames == [] {
        Underrun();
        return Nothing;
      }
      var recovered := TakeOldest();
      r := Popped(recovered);
    }

    /** Takes the frame with the expected sequence, if it is buffered. */
    method TakeSought() returns (found: Option<PcmFrame>)
      requires Valid() && expectedSequence.Some?
      modifies this`frames, this`expectedSequence, this`stats, this`model
      ensures Valid() && |frames| == |model.held|
      ensures found.Some? <==> SoughtIsHeld(old(model))
      ensures found.Some? ==> model == Deliver(old(model), 0) && found.value == old(model).held[0].frame
      ensures found.None? ==> model == old(model) && expectedSequence == old(expectedSequence)
    {
      Mirrors();
      SoughtIsFirst(model, frames);
      hide Valid, Remove, ToInt32, NextSeq, Deliver;
      var sought := expectedSequence.value;
      found := None;
      var rest := Remove(frames, sought);
      if rest.Some? {
        found := Some(rest.value.0);
        Handover(rest.value.1, NextSeq(sought), 0);
      }
      Mirrors();
    }

    /** Skips the missing numbers and takes the oldest frame; it is always found again. */
    method TakeOldest() returns (frame: PcmFrame)
      requires Valid() && expectedSequence.Some? && frames != []
      modifies this`frames, this`expectedSequence, this`stats, this`model
      ensures Valid() && old(model).held != [] && old(model).expected.Some?
      ensures old(model).held[0].num >= old(model).expected.value
      ensures model == Deliver(old(model), old(model).held[0].num - old(model).expected.value)
      ensures frame == old(model).held[0].frame
    {
      Mirrors();
      SoughtIsFirst(model, frames);
      hide Valid, Remove, ToInt32, NextSeq, Distance, Deliver;
      var oldest := frames[0].sequence;
      var gap := ToInt32(Distance(oldest, expectedSequence.value));
      var recovered := Remove(frames, oldest);
      if recovered.None? {
        assert false;
      }
      frame := recovered.value.0;
      Handover(recovered.value.1, NextSeq(oldest), gap);
    }

    method CountFloorHold()
      requires Valid()
      modifies this`stats, this`model
      ensures Valid()
      ensures model == old(model).(stats := old(model).stats.(floorHolds := old(model).stats.floorHolds + 1))
    {
      ghost var after := model.(stats := model.stats.(floorHolds := model.stats.floorHolds + 1));
      SameCore(model, after);
      hide Inv, Tracks;
      stats := stats.(floorHolds := stats.floorHolds + 1);
      model := after;
    }

    method Underrun()
      requires Valid()
      modifies this`stats, this`playoutStarted, this`expectedSequence, this`model
      ensures Valid() && model == JitterModel.Underrun(old(model))
    {
      hide Valid, EndEpoch, Counted;
      CountUnderrun();
      ForgetExpected();
      PublishCount();
    }

    method CountUnderrun()
      requires Valid()
      modifies this`stats, this`model
      ensures Valid()
      ensures model == old(model).(stats := old(model).stats.(underruns := old(model).stats.underruns + 1))
    {
      ghost var after := model.(stats := model.stats.(underruns := model.stats.underruns + 1));
      SameCore(model, after);
      hide Inv, Tracks;
      stats := stats.(underruns := stats.underruns + 1);
      model := after;
    }

    /** A frame leaves: the rest of the map, the next expected sequence and the gap are recorded. */
    method Handover(rest: seq<PcmFrame>, next: int32, gap: int)
      requires Valid() && frames != [] && model.expected.Some?
      requires gap == model.held[0].num - model.expected.value >= 0
      requires rest == frames[1..] && next == ToInt32(model.held[0].num + 1)
      modifies this`frames, this`expectedSequence, this`stats, this`model
      ensures Valid() && model == Deliver(old(model), gap)
    {
      TracksRest(frames, model.held);
      DeliverKeeps(model, gap);
      hide Inv, Tracks, ToInt32;
      if gap > 0 {
        stats := stats.(dropped := stats.dropped + gap);
      }
      expectedSequence := Some(next);
      frames := rest;
      stats := stats.(bufferedFrames := |frames|);
      model := Deliver(model, gap);
    }

    method PopContiguousForBatch() returns (r: PopOutcome)
      requires Valid()
      modifies this
      ensures Valid()
      ensures (model, r) == PopContiguous(old(model))
    {
      Agrees();
      hide Valid, Deliver;
      r := Nothing;
      if playoutStarted && expectedSequence.Some? {
        var found := TakeSought();
        if found.Some? {
          r := Popped(found.value);
        }
      }
    }

    function BufferedMs(): int
      reads this
    {
      ToInt32(|frames| * frameDurationMs)
    }

    method DropOldestMs(ms: int) returns (dropped: nat)
      requires Valid()
      modifies this
      ensures Valid()
      ensures (model, dropped) == DropOldest(old(model), ms)
    {
      Agrees();
      hide Valid, EvictTo, Realigned, Counted, FramesIn, Min;
      if ms <= 0 || frames == [] {
        return 0;
      }
      dropped := DropFrames(FramesIn(ms, frameDurationMs));
    }

    /** Drops the oldest frames, recounts, and brings the expected sequence back in line. */
    method DropFrames(framesToDrop: nat) returns (dropped: nat)
      requires Valid()
      modifies this
      ensures Valid()
      ensures dropped == Min(framesToDrop, |old(model).held|)
      ensures model == Realigned(Counted(EvictTo(old(model), |old(model).held| - dropped)))
    {
      hide Valid, EvictTo, Realigned, Counted, Min;
      dropped := PollRepeatedly(framesToDrop);
      PublishCount();
      Realign();
    }

    method Realign()
      requires Valid()
      modifies this`playoutStarted, this`expectedSequence, this`model
      ensures Valid() && model == Realigned(old(model))
    {
      Agrees();
      hide Valid, CatchUp, EndEpoch;
      if expectedSequence.Some? {
        if frames == [] {
          ForgetExpected();
        } else {
          CatchUpToOldest();
        }
      }
    }

    method ForgetExpected()
      requires Valid()
      modifies this`playoutStarted, this`expectedSequence, this`model
      ensures Valid() && model == EndEpoch(old(model))
    {
      EndEpochKeeps(model);
      hide Inv, Tracks;
      playoutStarted, expectedSequence := false, None;
      model := EndEpoch(model);
    }
  }

  /** What a rejected push leaves. */
  ghost function Rejected(b: Buffer, duration: pos, duplicate: bool): Buffer {
    var one := if duplicate then 1 else 0;
    b.(durationMs := duration,
       stats := b.stats.(dropped := b.stats.dropped + one, late := b.stats.late + 1 - one),
       log := b.log.(pushes := b.log.pushes + 1, duplicates := b.log.duplicates + one,
                     late := b.log.late + 1 - one))
  }

  lemma PushCases(b: Buffer, x: Numbered, packetMs: int, now: int)
    ensures var d := EffectiveDuration(packetMs);
            JitterModel.Push(b, x, packetMs, now) ==
              if Holds(b.held, x.num) then Rejected(b, d, true)
              else if b.expected.Some? && x.num < b.expected.value then Rejected(b, d, false)
              else JitterModel.Trim(Inserted(b, x, d), now)
  {
    hide JitterModel.Trim, Holds, Insert;
  }

  ghost predicate SoughtIsHeld(b: Buffer) {
    b.expected.Some? && b.held != [] && b.held[0].num == b.expected.value
  }

  function Wrapped(num: Option<int>): Option<int32> {
    if num.Some? then Some(ToInt32(num.value)) else None
  }

  ghost function FrameOf(packet: LasPacket): PcmFrame {
    PcmFrame(packet.sequence, packet.payload, packet.sampleRate, packet.channels,
             EffectiveDuration(packet.FrameDurationMs()))
  }

  lemma TracksRest(frames: seq<PcmFrame>, held: seq<Numbered>)
    requires Tracks(frames, held) && held != []
    ensures Tracks(frames[1..], held[1..]) && |frames| == |held|
  {
  }

  /** Where a pushed frame belongs: the wrapping tests find what plain order says. */
  lemma PushPosition(b: Buffer, frames: seq<PcmFrame>, x: Numbered)
    requires Window(b, x.num) && Tracks(frames, b.held) && x.frame.sequence == ToInt32(x.num)
    ensures ContainsKey(frames, x.frame.sequence) <==> Holds(b.held, x.num)
    ensures b.expected.Some? ==>
              (IsOlder(x.frame.sequence, ToInt32(b.expected.value)) <==> x.num < b.expected.value)
    ensures Tracks(Put(frames, x.frame), Insert(b.held, x))
  {
    KeyRankRefines(frames, b.held, x.num);
    PutRefines(frames, b.held, x);
    if b.expected.Some? {
      WindowRefinesOrder(x.num, b.expected.value);
    }
  }

  lemma OldestAgainstExpected(b: Buffer, frames: seq<PcmFrame>)
    requires Inv(b) && Tracks(frames, b.held) && frames != []
    ensures |frames| == |b.held| && frames[0].sequence == ToInt32(b.held[0].num)
    ensures b.expected.Some? ==>
              (IsOlder(ToInt32(b.expected.value), frames[0].sequence) <==> b.expected.value < b.held[0].num)
  {
    if b.expected.Some? {
      GapIsCount(b);
      WindowRefinesOrder(b.expected.value, b.held[0].num);
    }
  }

  /** The expected sequence is found exactly when it is the first one, and then it is removed; when it
      is not, the oldest key is found, and the masked 32-bit difference is the true gap. */
  lemma SoughtIsFirst(b: Buffer, frames: seq<PcmFrame>)
    requires Inv(b) && Tracks(frames, b.held)
    ensures |frames| == |b.held| && (frames != [] ==> frames[0] == b.held[0].frame)
    ensures b.expected.Some? ==>
              && NextSeq(ToInt32(b.expected.value)) == ToInt32(b.expected.value + 1)
              && Remove(frames, ToInt32(b.expected.value)) ==
                   if b.held != [] && b.held[0].num == b.expected.value then Some((frames[0], frames[1..])) else None
    ensures b.expected.Some? && frames != [] ==>
              && Remove(frames, frames[0].sequence) == Some((frames[0], frames[1..]))
              && NextSeq(frames[0].sequence) == ToInt32(b.held[0].num + 1)
              && ToInt32(Distance(frames[0].sequence, ToInt32(b.expected.value))) == b.held[0].num - b.expected.value
              && b.held[0].num >= b.expected.value
  {
    if b.expected.Some? {
      RemoveRefines(frames, b.held, b.expected.value);
      NextIsSuccessor(b.expected.value);
      if frames != [] {
        TrueGap(b, frames);
      }
    }
  }

  lemma MaskedGap(oldest: int, expected: int)
    requires 0 <= oldest - expected < TWO_31
    ensures ToInt32(Distance(ToInt32(oldest), ToInt32(expected))) == oldest - expected
  {
    DistanceOfWrapped(oldest, expected);
  }

  lemma TrueGap(b: Buffer, frames: seq<PcmFrame>)
    requires Inv(b) && b.expected.Some? && Tracks(frames, b.held) && frames != []
    ensures ToInt32(Distance(frames[0].sequence, ToInt32(b.expected.value))) == b.held[0].num - b.expected.value
    ensures Remove(frames, frames[0].sequence) == Some((frames[0], frames[1..]))
    ensures NextSeq(frames[0].sequence) == ToInt32(b.held[0].num + 1)
    ensures b.held[0].num >= b.expected.value
  {
    GapIsCount(b);
    RemoveFirst(frames, b.held);
    hide ToInt32, Distance, NextSeq, Inv, Remove;
    MaskedGap(b.held[0].num, b.expected.value);
    NextIsSuccessor(b.held[0].num);
  }

  lemma RemoveFirst(frames: seq<PcmFrame>, held: seq<Numbered>)
    requires Tracks(frames, held) && held != []
    ensures Remove(frames, frames[0].sequence) == Some((frames[0], frames[1..]))
  {
    assert frames[..0] + frames[1..] == frames[1..];
  }

  lemma EvictNothing(b: Buffer, n: nat)
    ensures |b.held| <= n ==> EvictTo(b, n) == b
  {
    if |b.held| <= n {
      assert b.held[0..] == b.held && b.held[..0] == [];
      assert b.log.evicted + [] == b.log.evicted;
    }
  }

  lemma EvictTwice(b: Buffer, m: nat, n: nat)
    requires n <= m <= |b.held|
    ensures EvictTo(EvictTo(b, m), n) == EvictTo(b, n)
  {
    var k, j := |b.held| - m, m - n;
    assert b.held[k..][j..] == b.held[k + j..];
    assert b.log.evicted + b.held[..k] + b.held[k..][..j] == b.log.evicted + b.held[..k + j];
  }
}

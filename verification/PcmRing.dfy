/** The lock-free ring between the decoder thread and the audio callback, as the atomic steps of one
    producer and one consumer: separate loads of the two 64-bit positions, one sample copied at a
    time, and the store that publishes. */
module PcmRing {
  import opened Words

  const CHANNELS := 2
  const CAPACITY_FRAMES := 8192
  const SLOTS := 16384

  /** Where the producer is inside push. seen is the frame count pulled when it loaded the read
      position; the loaded words themselves are w and r. */
  datatype Producer =
    | PIdle
    | PEntered(data: seq<int>)
    | PLoadedWrite(data: seq<int>, w: u64)
    | PLoadedRead(data: seq<int>, w: u64, r: u64, seen: nat)
    | PCopying(data: seq<int>, w: u64, done: nat)

  /** Where the consumer is inside pull. seen is the frame count pushed when it loaded the write position. */
  datatype Consumer =
    | CIdle
    | CEntered(wanted: int)
    | CLoadedRead(wanted: int, r: u64)
    | CLoadedWrite(wanted: int, r: u64, w: u64, seen: nat)
    | CCopying(r: u64, frames: nat, out: seq<int>)

  /** pushed and pulled record every sample published by the producer and handed out by the consumer. */
  datatype Ring = Ring(
    buffer: seq<int>, writePos: u64, readPos: u64, producer: Producer, consumer: Consumer,
    pushed: seq<int>, pulled: seq<int>)

  datatype Action = PushCall(data: seq<int>) | ProducerStep | PullCall(frames: int) | ConsumerStep

  const EMPTY := Ring(seq(SLOTS, _ => 0), 0, 0, PIdle, CIdle, [], [])

  function Frames(samples: seq<int>): nat {
    |samples| / CHANNELS
  }

  /** Frames published so far, frames handed out so far, frames between them. */
  function Written(s: Ring): nat { Frames(s.pushed) }
  function Read(s: Ring): nat { Frames(s.pulled) }
  function Fill(s: Ring): int { Written(s) - Read(s) }

  function ToU64(n: int): u64 {
    n % TWO_64
  }

  /** Difference of two positions as the code computes it, in 64 bits. */
  function Distance64(a: u64, b: u64): u64 {
    ToU64(a - b)
  }

  /** The slot of the k-th sample copied from position pos on, over a first chunk up to the end of the
      buffer and a second one from its start. */
  function SlotOf(pos: u64, frames: nat, k: nat): int {
    var start := pos % CAPACITY_FRAMES;
    var first := Min(frames, CAPACITY_FRAMES - start) * CHANNELS;
    if k < first then start * CHANNELS + k else k - first
  }

  function StepProducer(s: Ring): Ring
    requires |s.buffer| == SLOTS
  {
    match s.producer
    case PIdle => s
    case PEntered(data) => s.(producer := PLoadedWrite(data, s.writePos))
    case PLoadedWrite(data, w) => s.(producer := PLoadedRead(data, w, s.readPos, Read(s)))
    case PLoadedRead(data, w, r, _) =>
      if CAPACITY_FRAMES - Distance64(w, r) < Frames(data) then s.(producer := PIdle)
      else s.(producer := PCopying(data, w, 0))
    case PCopying(data, w, done) =>
      if done < |data| then
        var slot := SlotOf(w, Frames(data), done);
        if 0 <= slot < SLOTS
        then s.(buffer := s.buffer[slot := data[done]], producer := PCopying(data, w, done + 1))
        else s
      else
        s.(writePos := ToU64(w + Frames(data)), pushed := s.pushed + data, producer := PIdle)
  }

  function StepConsumer(s: Ring): Ring
    requires |s.buffer| == SLOTS
  {
    match s.consumer
    case CIdle => s
    case CEntered(wanted) => s.(consumer := CLoadedRead(wanted, s.readPos))
    case CLoadedRead(wanted, r) => s.(consumer := CLoadedWrite(wanted, r, s.writePos, Written(s)))
    case CLoadedWrite(wanted, r, w, _) =>
      var available := Min(Distance64(w, r), wanted);
      if available <= 0 then s.(consumer := CIdle) else s.(consumer := CCopying(r, available, []))
    case CCopying(r, frames, out) =>
      if |out| < CHANNELS * frames then
        var slot := SlotOf(r, frames, |out|);
        if 0 <= slot < SLOTS then s.(consumer := CCopying(r, frames, out + [s.buffer[slot]])) else s
      else
        s.(readPos := ToU64(r + frames), pulled := s.pulled + out, consumer := CIdle)
  }

  /** A call is taken up only by an idle thread; push refuses empty and oversized blocks at once, pull
      refuses a count that is not positive. */
  function Next(s: Ring, a: Action): (n: Ring)
    requires |s.buffer| == SLOTS
    ensures |n.buffer| == SLOTS
  {
    match a
    case PushCall(data) =>
      if s.producer.PIdle? && |data| % CHANNELS == 0 && 0 < Frames(data) <= CAPACITY_FRAMES
      then s.(producer := PEntered(data)) else s
    case PullCall(frames) =>
      if s.consumer.CIdle? && frames > 0 then s.(consumer := CEntered(frames)) else s
    case ProducerStep => StepProducer(s)
    case ConsumerStep => StepConsumer(s)
  }

  /** The state after any interleaving. */
  function Run(s: Ring, actions: seq<Action>): (n: Ring)
    requires |s.buffer| == SLOTS
    ensures |n.buffer| == SLOTS
    decreases |actions|
  {
    if actions == [] then s else Run(Next(s, actions[0]), actions[1..])
  }

  // ---- the invariant ----

  predicate Positions(s: Ring) {
    && |s.buffer| == SLOTS
    && |s.pushed| % CHANNELS == 0 && |s.pulled| % CHANNELS == 0
    && 0 <= Fill(s) <= CAPACITY_FRAMES
    && s.writePos == ToU64(Written(s)) && s.readPos == ToU64(Read(s))
    && s.pulled == s.pushed[..|s.pulled|]
  }

  /** The samples not handed out yet stand in the buffer, each in the slot of its index. */
  predicate Stored(s: Ring)
    requires Positions(s)
  {
    forall i :: |s.pulled| <= i < |s.pushed| ==> s.buffer[i % SLOTS] == s.pushed[i]
  }

  predicate Block(data: seq<int>) {
    |data| % CHANNELS == 0 && 0 < Frames(data) <= CAPACITY_FRAMES
  }

  predicate ProducerOk(s: Ring)
    requires Positions(s)
  {
    match s.producer
    case PIdle => true
    case PEntered(data) => Block(data)
    case PLoadedWrite(data, w) => Block(data) && w == s.writePos
    case PLoadedRead(data, w, r, seen) =>
      Block(data) && w == s.writePos && r == ToU64(seen) && seen <= Read(s) && Written(s) - seen <= CAPACITY_FRAMES
    case PCopying(data, w, done) =>
      && Block(data) && w == s.writePos && done <= |data|
      && Fill(s) + Frames(data) <= CAPACITY_FRAMES
      && forall k :: 0 <= k < done ==> s.buffer[(|s.pushed| + k) % SLOTS] == data[k]
  }

  predicate ConsumerOk(s: Ring)
    requires Positions(s)
  {
    match s.consumer
    case CIdle => true
    case CEntered(wanted) => wanted > 0
    case CLoadedRead(wanted, r) => wanted > 0 && r == s.readPos
    case CLoadedWrite(wanted, r, w, seen) =>
      wanted > 0 && r == s.readPos && w == ToU64(seen) && Read(s) <= seen <= Written(s)
    case CCopying(r, frames, out) =>
      && r == s.readPos && 0 < frames <= Fill(s) && |out| <= CHANNELS * frames
      && out == s.pushed[|s.pulled|..|s.pulled| + |out|]
  }

  predicate Inv(s: Ring) {
    Positions(s) && Stored(s) && ProducerOk(s) && ConsumerOk(s)
  }

  // ---- slot arithmetic ----

  /** Wrapping the position at 2^64 does not disturb the ring, whose size divides 2^64. */
  lemma SlotOfIndex(frame: nat, frames: nat, k: nat)
    requires frames <= CAPACITY_FRAMES && k < CHANNELS * frames
    ensures SlotOf(ToU64(frame), frames, k) == (CHANNELS * frame + k) % SLOTS
  {
    WrapKeepsSlot(frame);
    var start := frame % CAPACITY_FRAMES;
    var laps := frame / CAPACITY_FRAMES;
    assert CHANNELS * frame + k == SLOTS * laps + (CHANNELS * start + k);
    if CHANNELS * start + k < SLOTS {
      RemainderIs(CHANNELS * frame + k, laps, CHANNELS * start + k);
    } else {
      RemainderIs(CHANNELS * frame + k, laps + 1, CHANNELS * start + k - SLOTS);
    }
  }

  lemma WrapKeepsSlot(frame: nat)
    ensures ToU64(frame) % CAPACITY_FRAMES == frame % CAPACITY_FRAMES
  {
    var turns, low := frame / TWO_64, frame % TWO_64;
    var laps, rest := low / CAPACITY_FRAMES, low % CAPACITY_FRAMES;
    FrameRemainderIs(frame, 0x8_0000_0000_0000 * turns + laps, rest);
  }

  lemma FrameRemainderIs(n: nat, laps: nat, rest: nat)
    requires n == CAPACITY_FRAMES * laps + rest && rest < CAPACITY_FRAMES
    ensures n % CAPACITY_FRAMES == rest
  {
  }

  lemma RemainderIs(n: nat, laps: nat, rest: nat)
    requires n == SLOTS * laps + rest && rest < SLOTS
    ensures n % SLOTS == rest
  {
  }

  lemma DistinctSlots(i: nat, j: nat)
    requires i < j < i + SLOTS
    ensures i % SLOTS != j % SLOTS
  {
  }

  lemma DistanceIsFill(a: nat, b: nat)
    requires b <= a < b + TWO_64
    ensures Distance64(ToU64(a), ToU64(b)) == a - b
  {
    var x, y := a / TWO_64, b / TWO_64;
    assert ToU64(a) - ToU64(b) == (a - b) - TWO_64 * (x - y);
  }
}

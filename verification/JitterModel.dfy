/** The playback jitter buffer over unbounded sequence numbers: what each operation does, with
    plain comparison in place of the wrapping one, and a log of what happened to every frame. */
module JitterModel {
  import opened Words

  const MIN_FRAMES := 8
  const MAX_FRAMES := 2000
  const HARD_FLOOR_MS := 8
  const TRIM_OBSERVE_WINDOW_MS := 250

  /** Durations in milliseconds that a ceiling division can divide by. */
  type pos = n: int | 0 < n witness 10

  datatype PcmFrame = PcmFrame(
    sequence: int32, payload: seq<byte>, sampleRate: int, channels: int, frameDurationMs: int)

  /** A frame and the unbounded number that its sequence wraps. */
  datatype Numbered = Numbered(num: int, frame: PcmFrame)

  datatype Stats = Stats(bufferedFrames: nat, underruns: nat, dropped: nat, late: nat, floorHolds: nat)

  /** A frame handed to playout: in which epoch, and how many numbers were skipped just before it. */
  datatype Delivery = Delivery(epoch: nat, item: Numbered, gap: nat)

  /** What happened since the last clear. An epoch ends whenever the expected number is forgotten. */
  datatype Log = Log(
    pushes: nat, accepted: seq<Numbered>, duplicates: nat, late: nat,
    delivered: seq<Delivery>, evicted: seq<Numbered>, skipped: nat, epoch: nat)

  datatype Config = Config(startMs: int, maxMs: int, dropMs: int)

  datatype Buffer = Buffer(
    config: Config, held: seq<Numbered>, started: bool, expected: Option<int>,
    durationMs: pos, overflowSinceMs: int, stats: Stats, log: Log)

  datatype PopOutcome = Popped(frame: PcmFrame) | Nothing | NoSuchElement

  const EMPTY_LOG := Log(0, [], 0, 0, [], [], 0, 0)

  function Fresh(config: Config): Buffer {
    Buffer(config, [], false, None, 10, 0, Stats(0, 0, 0, 0, 0), EMPTY_LOG)
  }

  // ---- the sorted map ----

  predicate Ascending(held: seq<Numbered>) {
    forall i, j :: 0 <= i < j < |held| ==> held[i].num < held[j].num
  }

  /** How many held numbers lie before num. */
  function Rank(held: seq<Numbered>, num: int): (r: nat)
    ensures r <= |held|
  {
    if held == [] || held[0].num >= num then 0 else 1 + Rank(held[1..], num)
  }

  predicate Holds(held: seq<Numbered>, num: int) {
    var r := Rank(held, num);
    r < |held| && held[r].num == num
  }

  function Insert(held: seq<Numbered>, x: Numbered): seq<Numbered> {
    var r := Rank(held, x.num);
    held[..r] + [x] + held[r..]
  }

  // ---- trimming ----

  /** Throws away the oldest frames until at most n remain. */
  function EvictTo(b: Buffer, n: nat): Buffer {
    var k := Max(|b.held| - n, 0);
    b.(held := b.held[k..],
       stats := b.stats.(dropped := b.stats.dropped + k),
       log := b.log.(evicted := b.log.evicted + b.held[..k]))
  }

  function MaxFrames(maxMs: int, durationMs: pos): nat {
    Clamp(CeilDiv(maxMs, durationMs), MIN_FRAMES, MAX_FRAMES)
  }

  function ThresholdFrames(dropMs: int, durationMs: pos): nat {
    Max(CeilDiv(dropMs, durationMs), 1)
  }

  function StartFrames(startMs: int, durationMs: pos): int {
    CeilDiv(startMs, durationMs)
  }

  function TrimSize(b: Buffer): Buffer {
    EvictTo(b, MaxFrames(b.config.maxMs, b.durationMs))
  }

  /** The expected number moves up to the oldest frame left, if it was unset or behind. */
  function CatchUp(b: Buffer): Buffer
    requires b.held != []
  {
    var oldest := b.held[0].num;
    if b.expected.None? || b.expected.value < oldest then b.(expected := Some(oldest)) else b
  }

  function TrimLatency(b: Buffer, now: int): Buffer {
    var threshold := ThresholdFrames(b.config.dropMs, b.durationMs);
    if |b.held| <= threshold then b.(overflowSinceMs := 0)
    else if b.overflowSinceMs == 0 then b.(overflowSinceMs := now)
    else if now - b.overflowSinceMs < TRIM_OBSERVE_WINDOW_MS then b
    else CatchUp(EvictTo(b, threshold).(overflowSinceMs := 0))
  }

  function Trim(b: Buffer, now: int): Buffer {
    Counted(TrimLatency(TrimSize(b), now))
  }

  function Counted(b: Buffer): Buffer {
    b.(stats := b.stats.(bufferedFrames := |b.held|))
  }

  // ---- operations ----

  /** The duration a packet imposes: 10 ms when it does not give a positive one. */
  function EffectiveDuration(packetMs: int): pos {
    if packetMs > 0 then packetMs else 10
  }

  /** The buffer right after an accepted frame is inserted, before trimming. */
  function Inserted(b: Buffer, x: Numbered, duration: pos): Buffer {
    b.(durationMs := duration, held := Insert(b.held, x),
       log := b.log.(pushes := b.log.pushes + 1, accepted := b.log.accepted + [x]))
  }

  function Push(b: Buffer, x: Numbered, packetMs: int, now: int): Buffer {
    var b1 := b.(durationMs := EffectiveDuration(packetMs), log := b.log.(pushes := b.log.pushes + 1));
    if Holds(b.held, x.num) then
      b1.(stats := b1.stats.(dropped := b.stats.dropped + 1),
          log := b1.log.(duplicates := b.log.duplicates + 1))
    else if b.expected.Some? && x.num < b.expected.value then
      b1.(stats := b1.stats.(late := b.stats.late + 1), log := b1.log.(late := b.log.late + 1))
    else
      Trim(Inserted(b, x, EffectiveDuration(packetMs)), now)
  }

  function BufferedMs(b: Buffer): int {
    ToInt32(|b.held| * b.durationMs)
  }

  /** Hands out the oldest frame, whose number is gap past the expected one. */
  function Deliver(b: Buffer, gap: nat): Buffer
    requires b.held != []
  {
    var x := b.held[0];
    Counted(b.(held := b.held[1..], expected := Some(x.num + 1),
               stats := b.stats.(dropped := b.stats.dropped + gap),
               log := b.log.(delivered := b.log.delivered + [Delivery(b.log.epoch, x, gap)],
                             skipped := b.log.skipped + gap)))
  }

  function EndEpoch(b: Buffer): Buffer {
    b.(started := false, expected := None, log := b.log.(epoch := b.log.epoch + 1))
  }

  function Start(b: Buffer): Buffer
    requires b.held != []
  {
    b.(started := true, expected := Some(b.held[0].num))
  }

  predicate CanStart(b: Buffer) {
    |b.held| >= StartFrames(b.config.startMs, b.durationMs)
  }

  function Pop(b: Buffer, hardFloor: bool): (Buffer, PopOutcome) {
    if b.started then PopStarted(b, hardFloor)
    else if !CanStart(b) then (Counted(b), Nothing)
    else if b.held == [] then (b.(started := true), NoSuchElement)
    else PopStarted(Start(b), hardFloor)
  }

  function Underrun(b: Buffer): Buffer {
    Counted(EndEpoch(b.(stats := b.stats.(underruns := b.stats.underruns + 1))))
  }

  function PopStarted(b: Buffer, hardFloor: bool): (Buffer, PopOutcome) {
    if hardFloor && BufferedMs(b) <= HARD_FLOOR_MS then
      (Counted(b.(stats := b.stats.(floorHolds := b.stats.floorHolds + 1))), Nothing)
    else PopExpected(b)
  }

  function PopExpected(b: Buffer): (Buffer, PopOutcome) {
    if b.expected.None? then (b, Nothing)
    else if b.held == [] then (Underrun(b), Nothing)
    else
      (Deliver(b, Max(b.held[0].num - b.expected.value, 0)), Popped(b.held[0].frame))
  }

  function PopContiguous(b: Buffer): (Buffer, PopOutcome) {
    if b.started && b.expected.Some? && b.held != [] && b.held[0].num == b.expected.value
    then (Deliver(b, 0), Popped(b.held[0].frame))
    else (b, Nothing)
  }

  /** Frames that make up this many milliseconds, at least one. */
  function FramesIn(ms: int, durationMs: pos): nat {
    Max(CeilDiv(ms, durationMs), 1)
  }

  function DropOldest(b: Buffer, ms: int): (Buffer, nat) {
    if ms <= 0 || b.held == [] then (b, 0)
    else
      var n := Min(FramesIn(ms, b.durationMs), |b.held|);
      (Realigned(Counted(EvictTo(b, |b.held| - n))), n)
  }

  /** After dropping: nothing left ends the epoch, otherwise the expected number catches up. */
  function Realigned(b: Buffer): Buffer {
    if b.expected.None? then b else if b.held == [] then EndEpoch(b) else CatchUp(b)
  }

  function Reconfigured(startMs: int, maxMs: int, dropMs: int): Config {
    var start := Max(startMs, 1);
    Config(start, Max(maxMs, start), Max(dropMs, start))
  }

  function Reconfigure(b: Buffer, startMs: int, maxMs: int, dropMs: int, now: int): Buffer {
    Trim(b.(config := Reconfigured(startMs, maxMs, dropMs)), now)
  }

  function Clear(b: Buffer): Buffer {
    Fresh(b.config)
  }

  // ---- the window ----

  /** Every number in play, and num, lie within less than half the wrapping number space. */
  predicate Window(b: Buffer, num: int) {
    && (forall i :: 0 <= i < |b.held| ==> -TWO_31 < num - b.held[i].num < TWO_31)
    && (b.expected.Some? ==> -TWO_31 < num - b.expected.value < TWO_31)
  }

  /** The shape every operation keeps: ascending numbers, none before the expected one, all within
      half the number space. */
  predicate Shape(b: Buffer) {
    && Ascending(b.held)
    && (forall i, j :: 0 <= i < |b.held| && 0 <= j < |b.held| ==> b.held[i].num - b.held[j].num < TWO_31)
    && (b.expected.Some? ==>
          forall i :: 0 <= i < |b.held| ==> 0 <= b.held[i].num - b.expected.value < TWO_31)
  }
}

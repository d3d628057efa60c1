/** Cutting captured packets of any size into frames of one fixed size. */
module PcmAccumulator {
  import opened Words
  import opened Reals

  datatype PacketKind = NoPacket | SilentPacket | AudioPacket | Mixed | Synthetic

  /** Samples that wait for a frame, each with the silence flag it came with. */
  datatype Buffered = Buffered(samples: seq<real>, silence: seq<bool>) {
    predicate Paired() {
      |samples| == |silence|
    }

    function Then(more: Buffered): Buffered {
      Buffered(samples + more.samples, silence + more.silence)
    }

    function Slice(from: nat, to: nat): Buffered
      requires Paired() && from <= to <= |samples|
    {
      Buffered(samples[from..to], silence[from..to])
    }
  }

  /** meanSquare is the square of the root mean square. */
  datatype Frame = Frame(samples: seq<real>, isSilence: bool, peak: real, meanSquare: real, kind: PacketKind)

  datatype Op =
    | PushSamples(input: seq<real>, isSilence: bool)
    | PushSilenceSamples(count: nat)
    | PopFrame

  const EMPTY := Buffered([], [])

  predicate AllTrue(flags: seq<bool>) {
    forall k :: 0 <= k < |flags| ==> flags[k]
  }

  predicate AnyTrue(flags: seq<bool>) {
    exists k :: 0 <= k < |flags| && flags[k]
  }

  predicate AnyFalse(flags: seq<bool>) {
    exists k :: 0 <= k < |flags| && !flags[k]
  }

  function KindOf(flags: seq<bool>): PacketKind {
    match (AllTrue(flags), AnyTrue(flags), AnyFalse(flags))
    case (true, _, _) => SilentPacket
    case (false, false, true) => AudioPacket
    case (false, true, true) => Mixed
    case _ => AudioPacket
  }

  function PeakOf(samples: seq<real>): real {
    if samples == [] then 0.0
    else MaxReal(PeakOf(samples[..|samples| - 1]), Magnitude(samples[|samples| - 1]))
  }

  function SumSquares(samples: seq<real>): real {
    if samples == [] then 0.0
    else SumSquares(samples[..|samples| - 1]) + samples[|samples| - 1] * samples[|samples| - 1]
  }

  function MeanSquare(samples: seq<real>): real {
    if samples == [] then 0.0 else SumSquares(samples) / |samples| as real
  }

  /** The peak is the magnitude of some sample, and no sample has a larger one. */
  lemma {:induction false} PeakIsLargest(samples: seq<real>)
    ensures forall k :: 0 <= k < |samples| ==> Magnitude(samples[k]) <= PeakOf(samples)
    ensures samples != [] ==> exists k :: 0 <= k < |samples| && Magnitude(samples[k]) == PeakOf(samples)
    ensures PeakOf(samples) >= 0.0
  {
    if samples != [] {
      var n := |samples| - 1;
      PeakIsLargest(samples[..n]);
      if k :| 0 <= k < n && Magnitude(samples[..n][k]) == PeakOf(samples[..n]) {
        assert samples[k] == samples[..n][k];
      }
      assert Magnitude(samples[n]) >= 0.0;
    }
  }

  method ComputePeakAndMeanSquare(samples: seq<real>) returns (peak: real, meanSquare: real)
    ensures peak == PeakOf(samples) && meanSquare == MeanSquare(samples)
  {
    if samples == [] {
      return 0.0, 0.0;
    }
    peak := 0.0;
    var sumSquares := 0.0;
    for k := 0 to |samples|
      invariant peak == PeakOf(samples[..k]) && sumSquares == SumSquares(samples[..k])
    {
      assert samples[..k + 1][..k] == samples[..k];
      var magnitude := Magnitude(samples[k]);
      if magnitude > peak {
        peak := magnitude;
      }
      sumSquares := sumSquares + samples[k] * samples[k];
    }
    assert samples[..|samples|] == samples;
    meanSquare := sumSquares / |samples| as real;
  }

  function FrameOf(b: Buffered): Frame {
    Frame(b.samples, AllTrue(b.silence), PeakOf(b.samples), MeanSquare(b.samples), KindOf(b.silence))
  }

  /** The kind says exactly which of the two sorts of sample the frame holds. */
  lemma KindMatchesFlags(b: Buffered)
    ensures FrameOf(b).isSilence <==> !AnyFalse(b.silence)
    ensures FrameOf(b).kind == SilentPacket <==> !AnyFalse(b.silence)
    ensures FrameOf(b).kind == Mixed <==> AnyTrue(b.silence) && AnyFalse(b.silence)
    ensures FrameOf(b).kind == AudioPacket <==> !AnyTrue(b.silence) && AnyFalse(b.silence)
  {
  }

  /** The energy of the samples, from the first on. */
  function Energy(samples: seq<real>): real {
    if samples == [] then 0.0 else samples[0] * samples[0] + Energy(samples[1..])
  }

  lemma {:induction false} EnergyFromTheEnd(samples: seq<real>)
    requires samples != []
    ensures Energy(samples) == Energy(samples[..|samples| - 1]) + samples[|samples| - 1] * samples[|samples| - 1]
  {
    var n := |samples| - 1;
    if n > 0 {
      EnergyFromTheEnd(samples[1..]);
      assert samples[1..][..n - 1] == samples[..n][1..];
    }
  }

  lemma {:induction false} SumIsEnergy(samples: seq<real>)
    ensures SumSquares(samples) == Energy(samples)
  {
    if samples != [] {
      SumIsEnergy(samples[..|samples| - 1]);
      EnergyFromTheEnd(samples);
    }
  }

  /** All that a frame says of its samples and flags. */
  lemma FrameExactly(b: Buffered)
    ensures var f := FrameOf(b);
            && f.samples == b.samples
            && (f.isSilence <==> false !in b.silence)
            && (f.kind == SilentPacket <==> false !in b.silence)
            && (f.kind == Mixed <==> true in b.silence && false in b.silence)
            && (f.kind == AudioPacket <==> true !in b.silence && false in b.silence)
            && (forall k :: 0 <= k < |b.samples| ==> Magnitude(b.samples[k]) <= f.peak)
            && (b.samples != [] ==> exists k :: 0 <= k < |b.samples| && Magnitude(b.samples[k]) == f.peak)
            && (b.samples == [] ==> f.peak == 0.0 && f.meanSquare == 0.0)
            && (b.samples != [] ==> f.meanSquare * |b.samples| as real == Energy(b.samples))
  {
    SumIsEnergy(b.samples);
    PeakIsLargest(b.samples);
    hide SumSquares, Energy, Magnitude;
    assert forall k :: 0 <= k < |b.silence| ==> b.silence[k] in b.silence;
  }

  /** A pop takes a frame exactly when there are samples enough, from the front, and leaves the rest. */
  lemma PopExactly(b: Buffered, size: nat)
    requires b.Paired()
    ensures var o := Popped(b, size);
            && (o.frames == [] <==> |b.samples| < size)
            && (o.frames == [] ==> o.left == b)
            && (o.frames != [] ==>
                  && o.frames == [FrameOf(Buffered(b.samples[..size], b.silence[..size]))]
                  && o.left.samples == b.samples[size..] && o.left.silence == b.silence[size..])
  {
  }

  /** A push appends samples under one flag; a push of silence appends zeros that count as silent. */
  lemma PushExactly(b: Buffered, size: nat, op: Op)
    requires b.Paired() && !op.PopFrame?
    ensures var o := Step(b, size, op);
            && o.frames == []
            && |o.left.samples| == |b.samples| + (if op.PushSamples? then |op.input| else op.count)
            && o.left.samples[..|b.samples|] == b.samples && o.left.silence[..|b.samples|] == b.silence
            && (op.PushSamples? ==> o.left.samples[|b.samples|..] == op.input)
            && (forall k :: |b.samples| <= k < |o.left.samples| ==>
                  && (op.PushSamples? ==> o.left.silence[k] == op.isSilence)
                  && (op.PushSilenceSamples? ==> o.left.silence[k] && o.left.samples[k] == 0.0))
  {
  }

  // What a run of calls leaves in the buffer, and the frames it pops.

  function Added(op: Op): (b: Buffered)
    ensures b.Paired()
  {
    match op
    case PushSamples(input, isSilence) => Buffered(input, seq(|input|, _ => isSilence))
    case PushSilenceSamples(count) => Buffered(seq(count, _ => 0.0), seq(count, _ => true))
    case PopFrame => EMPTY
  }

  /** Everything pushed, packet boundaries forgotten. */
  function Stream(ops: seq<Op>): (b: Buffered)
    ensures b.Paired()
  {
    if ops == [] then EMPTY else Stream(ops[..|ops| - 1]).Then(Added(ops[|ops| - 1]))
  }

  datatype Outcome = Outcome(left: Buffered, frames: seq<Frame>)

  function Popped(b: Buffered, size: nat): Outcome
    requires b.Paired()
  {
    if |b.samples| < size then Outcome(b, [])
    else Outcome(b.Slice(size, |b.samples|), [FrameOf(b.Slice(0, size))])
  }

  function Step(b: Buffered, size: nat, op: Op): (o: Outcome)
    requires b.Paired()
    ensures o.left.Paired()
  {
    if op.PopFrame? then Popped(b, size) else Outcome(b.Then(Added(op)), [])
  }

  function Run(size: nat, ops: seq<Op>): (o: Outcome)
    ensures o.left.Paired()
  {
    if ops == [] then Outcome(EMPTY, [])
    else
      var before := Run(size, ops[..|ops| - 1]);
      var last := Step(before.left, size, ops[|ops| - 1]);
      Outcome(last.left, before.frames + last.frames)
  }

  /** Where frame k begins in the stream. */
  function Start(k: nat, size: nat): nat {
    k * size
  }

  lemma NextStart(k: nat, size: nat)
    ensures Start(k + 1, size) == Start(k, size) + size
  {
  }

  /** The frames are the consecutive slices of the stream, and the buffer is what follows them. */
  ghost predicate Cut(stream: Buffered, size: nat, o: Outcome) {
    var done := Start(|o.frames|, size);
    && stream.Paired() && done <= |stream.samples|
    && o.left == stream.Slice(done, |stream.samples|)
    && forall k :: 0 <= k < |o.frames| ==> IsFrame(stream, size, k, o.frames[k])
  }

  ghost predicate IsFrame(stream: Buffered, size: nat, k: nat, f: Frame) {
    && stream.Paired() && Start(k, size) + size <= |stream.samples|
    && f == FrameOf(stream.Slice(Start(k, size), Start(k, size) + size))
  }

  lemma GrowingKeepsFrames(stream: Buffered, more: Buffered, size: nat, k: nat, f: Frame)
    requires IsFrame(stream, size, k, f) && more.Paired()
    ensures IsFrame(stream.Then(more), size, k, f)
  {
    hide FrameOf, Start;
    var from := Start(k, size);
    assert stream.Then(more).Slice(from, from + size) == stream.Slice(from, from + size);
  }

  lemma PushCuts(stream: Buffered, size: nat, o: Outcome, more: Buffered)
    requires Cut(stream, size, o) && more.Paired()
    ensures Cut(stream.Then(more), size, Outcome(o.left.Then(more), o.frames))
  {
    hide Start;
    forall k | 0 <= k < |o.frames| ensures IsFrame(stream.Then(more), size, k, o.frames[k]) {
      GrowingKeepsFrames(stream, more, size, k, o.frames[k]);
    }
    hide IsFrame;
  }

  lemma PopCuts(stream: Buffered, size: nat, o: Outcome)
    requires Cut(stream, size, o) && size <= |o.left.samples|
    ensures var last := Popped(o.left, size);
            Cut(stream, size, Outcome(last.left, o.frames + last.frames))
  {
    var done := Start(|o.frames|, size);
    NextStart(|o.frames|, size);
    hide Start;
    assert o.left.Slice(0, size) == stream.Slice(done, done + size);
    assert IsFrame(stream, size, |o.frames|, FrameOf(o.left.Slice(0, size)));
    hide IsFrame, FrameOf;
  }

  /** Nothing is lost, repeated or reordered, however the samples were packed and whenever frames were taken. */
  lemma {:induction false} FramesAreSlices(size: nat, ops: seq<Op>)
    ensures Cut(Stream(ops), size, Run(size, ops))
  {
    if ops != [] {
      var earlier, op := ops[..|ops| - 1], ops[|ops| - 1];
      FramesAreSlices(size, earlier);
      hide Cut;
      if op.PopFrame? {
        assert Stream(ops) == Stream(earlier);
        if size <= |Run(size, earlier).left.samples| {
          PopCuts(Stream(earlier), size, Run(size, earlier));
        } else {
          assert Run(size, ops) == Run(size, earlier);
        }
      } else {
        PushCuts(Stream(earlier), size, Run(size, earlier), Added(op));
        assert Run(size, earlier).frames + [] == Run(size, earlier).frames;
      }
    }
  }

  /** Two runs that push the same samples and flags pop the same frames, up to the shorter of the two. */
  lemma BoundariesDoNotMatter(size: nat, ops: seq<Op>, others: seq<Op>)
    requires Stream(ops) == Stream(others)
    requires |Run(size, ops).frames| <= |Run(size, others).frames|
    ensures Run(size, ops).frames == Run(size, others).frames[..|Run(size, ops).frames|]
    ensures |Run(size, ops).frames| == |Run(size, others).frames| ==> Run(size, ops) == Run(size, others)
  {
    var a, b := Run(size, ops), Run(size, others);
    FramesAreSlices(size, ops);
    FramesAreSlices(size, others);
    hide Run, Stream, FrameOf, Start;
    forall k | 0 <= k < |a.frames| ensures a.frames[k] == b.frames[k] {
      assert IsFrame(Stream(ops), size, k, a.frames[k]) && IsFrame(Stream(others), size, k, b.frames[k]);
    }
  }

  /** A drained buffer has popped every whole frame of the stream. */
  lemma DrainedPopsAll(size: nat, ops: seq<Op>)
    requires size > 0 && |Run(size, ops).left.samples| < size
    ensures |Run(size, ops).frames| == |Stream(ops).samples| / size
  {
    FramesAreSlices(size, ops);
    var o := Run(size, ops);
    hide IsFrame, Run, Stream;
    DivisionIs(|Stream(ops).samples|, size, |o.frames|, |o.left.samples|);
  }

  class PcmFrameAccumulator {
    const frameSamples: nat
    var samples: seq<real>
    var silenceFlags: seq<bool>

    ghost predicate Valid()
      reads this
    {
      Contents().Paired()
    }

    ghost function Contents(): Buffered
      reads this
    {
      Buffered(samples, silenceFlags)
    }

    constructor (frameSamples: nat)
      ensures Valid() && Contents() == EMPTY && this.frameSamples == frameSamples
    {
      this.frameSamples := frameSamples;
      samples, silenceFlags := [], [];
    }

    method PushSamples(input: seq<real>, isSilence: bool)
      requires Valid()
      modifies this
      ensures Valid() && Contents() == Step(old(Contents()), frameSamples, Op.PushSamples(input, isSilence)).left
    {
      if input == [] {
        return;
      }
      samples := samples + input;
      silenceFlags := silenceFlags + seq(|input|, _ => isSilence);
    }

    method PushSilenceSamples(count: nat)
      requires Valid()
      modifies this
      ensures Valid() && Contents() == Step(old(Contents()), frameSamples, Op.PushSilenceSamples(count)).left
    {
      if count == 0 {
        return;
      }
      samples := samples + seq(count, _ => 0.0);
      silenceFlags := silenceFlags + seq(count, _ => true);
    }

    method PopFrame() returns (frame: Option<Frame>)
      requires Valid()
      modifies this
      ensures Valid()
      ensures Outcome(Contents(), if frame.Some? then [frame.value] else [])
           == Step(old(Contents()), frameSamples, Op.PopFrame)
    {
      if |samples| < frameSamples {
        return None;
      }
      var taken, flags := samples[..frameSamples], silenceFlags[..frameSamples];
      samples, silenceFlags := samples[frameSamples..], silenceFlags[frameSamples..];
      var peak, meanSquare := ComputePeakAndMeanSquare(taken);
      frame := Some(Frame(taken, AllTrue(flags), peak, meanSquare, KindOf(flags)));
    }
  }
}

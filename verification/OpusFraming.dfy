/** Pairing 10 ms blocks into the 20 ms frames the Opus encoder takes. */
module OpusFraming {
  import opened Words
  import opened Reals

  /** One 10 ms block; square is the square of its root mean square. */
  datatype Block = Block(ptsMs: u64, samples: seq<real>, isSilence: bool, peak: real, square: real)

  /** One 20 ms frame; meanSquare is the square of its root mean square. */
  datatype OpusInput = OpusInput(ptsMs: u64, samples: seq<real>, isSilence: bool, peak: real, meanSquare: real)

  datatype Pending = Pending(
    samples: seq<real>,
    ptsMs: Option<u64>,
    isSilence: bool,
    peak: real,
    squares: real,
    blocks: nat)

  const EMPTY := Pending([], None, true, 0.0, 0.0, 0)

  function SamplesPer20Ms(sampleRate: u32): (n: nat)
    ensures n >= 2 && n % 2 == 0
  {
    Max(sampleRate / 50, 1) * 2
  }

  function Pushed(s: Pending, b: Block): Pending {
    if s.ptsMs.None? then Pending(s.samples + b.samples, Some(b.ptsMs), b.isSilence, b.peak, b.square, 1)
    else
      Pending(s.samples + b.samples, s.ptsMs, s.isSilence && b.isSilence, MaxReal(s.peak, b.peak),
              s.squares + b.square, s.blocks + 1)
  }

  function LaterBy10(ptsMs: u64): u64 {
    Min(ptsMs + 10, TWO_64 - 1)
  }

  function Rest(s: Pending, size: nat): Pending
    requires size <= |s.samples|
  {
    var left := s.samples[size..];
    Pending(left, if left == [] || s.ptsMs.None? then None else Some(LaterBy10(s.ptsMs.value)), true, 0.0, 0.0, 0)
  }

  function FrameOf(s: Pending, size: nat): OpusInput
    requires size <= |s.samples| && s.ptsMs.Some?
  {
    OpusInput(s.ptsMs.value, s.samples[..size], s.isSilence, s.peak,
              if s.blocks == 0 then 0.0 else s.squares / s.blocks as real)
  }

  datatype Outcome = Outcome(left: Pending, frames: seq<OpusInput>)

  /** A frame is popped when there are samples enough and a time stamp to give it. */
  function Popped(s: Pending, size: nat): Outcome {
    if |s.samples| < size || s.ptsMs.None? then Outcome(s, [])
    else Outcome(Rest(s, size), [FrameOf(s, size)])
  }

  /** 20 ms of stereo at the rates the encoder uses. */
  lemma TwentyMilliseconds(sampleRate: u32)
    requires sampleRate in {8000, 12000, 16000, 24000, 48000}
    ensures 25 * SamplesPer20Ms(sampleRate) == sampleRate
  {
  }

  /** The first block's time stamp stays; silence holds while every block is silent; the largest peak counts. */
  lemma PushExactly(s: Pending, b: Block)
    ensures var n, first := Pushed(s, b), s.ptsMs == None;
            && n.samples == s.samples + b.samples
            && n.ptsMs == (if first then Some(b.ptsMs) else s.ptsMs)
            && n.isSilence == (b.isSilence && (first || s.isSilence))
            && n.peak == (if first || s.peak < b.peak then b.peak else s.peak)
            && n.squares == (if first then b.square else s.squares + b.square)
            && n.blocks == if first then 1 else s.blocks + 1
  {
  }

  /** A frame is popped exactly when there are samples enough and a time stamp. Samples left over are stamped 10 ms
      later, up to the largest stamp, and described by the blocks still to come. */
  lemma PopExactly(s: Pending, size: nat)
    ensures var o := Popped(s, size);
            && (o.frames != [] <==> |s.samples| >= size && s.ptsMs != None)
            && (o.frames == [] ==> o.left == s)
            && (o.frames != [] ==>
                  && |o.frames| == 1
                  && var f := o.frames[0];
                     && f.ptsMs == s.ptsMs.value && f.samples == s.samples[..size]
                     && f.isSilence == s.isSilence && f.peak == s.peak
                     && (s.blocks == 0 ==> f.meanSquare == 0.0)
                     && (s.blocks > 0 ==> f.meanSquare * s.blocks as real == s.squares)
                     && o.left.samples == s.samples[size..]
                     && (|s.samples| == size ==> o.left.ptsMs == None)
                     && (|s.samples| > size ==>
                           o.left.ptsMs == Some(if s.ptsMs.value + 10 > 0xFFFF_FFFF_FFFF_FFFF
                                                then 0xFFFF_FFFF_FFFF_FFFF else s.ptsMs.value + 10))
                     && o.left.isSilence && o.left.peak == 0.0 && o.left.squares == 0.0 && o.left.blocks == 0)
  {
  }

  datatype Op = Push(block: Block) | Pop

  function Step(s: Pending, size: nat, op: Op): Outcome {
    match op
    case Push(block) => Outcome(Pushed(s, block), [])
    case Pop => Popped(s, size)
  }

  function Run(size: nat, ops: seq<Op>): Outcome {
    if ops == [] then Outcome(EMPTY, [])
    else
      var before := Run(size, ops[..|ops| - 1]);
      var last := Step(before.left, size, ops[|ops| - 1]);
      Outcome(last.left, before.frames + last.frames)
  }

  function SamplesIn(ops: seq<Op>): seq<real> {
    if ops == [] then []
    else
      var op := ops[|ops| - 1];
      SamplesIn(ops[..|ops| - 1]) + if op.Push? then op.block.samples else []
  }

  function SamplesOut(frames: seq<OpusInput>): seq<real> {
    if frames == [] then [] else SamplesOut(frames[..|frames| - 1]) + frames[|frames| - 1].samples
  }

  ghost predicate Inv(s: Pending) {
    s.samples != [] ==> s.ptsMs.Some?
  }

  lemma StepConserves(s: Pending, size: nat, op: Op)
    requires size > 0 && Inv(s)
    ensures Inv(Step(s, size, op).left)
    ensures var o := Step(s, size, op);
            && s.samples + (if op.Push? then op.block.samples else []) == SamplesOut(o.frames) + o.left.samples
            && |o.frames| <= 1 && (o.frames != [] ==> |o.frames[0].samples| == size)
  {
    var o := Step(s, size, op);
    if o.frames != [] {
      assert o.frames[..0] == [];
      assert s.samples == s.samples[..size] + s.samples[size..];
    }
  }

  lemma SamplesOutAppends(frames: seq<OpusInput>, more: seq<OpusInput>)
    requires |more| <= 1
    ensures SamplesOut(frames + more) == SamplesOut(frames) + SamplesOut(more)
  {
    if more == [] {
      assert frames + more == frames;
    } else {
      assert (frames + more)[..|frames|] == frames;
      assert more[..0] == [];
    }
  }

  lemma Regroup(out: seq<real>, before: seq<real>, added: seq<real>, popped: seq<real>, after: seq<real>)
    requires before + added == popped + after
    ensures (out + before) + added == (out + popped) + after
  {
    assert (out + before) + added == out + (before + added);
  }

  /** Any pushes and pops: the popped samples and then the buffered ones are the pushed ones, in order. */
  lemma {:induction false} SamplesAreConserved(size: nat, ops: seq<Op>)
    requires size > 0
    ensures Inv(Run(size, ops).left)
    ensures SamplesIn(ops) == SamplesOut(Run(size, ops).frames) + Run(size, ops).left.samples
  {
    if ops != [] {
      var earlier, op := ops[..|ops| - 1], ops[|ops| - 1];
      SamplesAreConserved(size, earlier);
      var before := Run(size, earlier);
      var last := Step(before.left, size, op);
      var added := if op.Push? then op.block.samples else [];
      assert SamplesIn(ops) == SamplesIn(earlier) + added;
      assert Run(size, ops) == Outcome(last.left, before.frames + last.frames);
      hide Step, SamplesOut, Inv, Run, SamplesIn;
      StepConserves(before.left, size, op);
      SamplesOutAppends(before.frames, last.frames);
      Regroup(SamplesOut(before.frames), before.left.samples, added, SamplesOut(last.frames), last.left.samples);
    }
  }

  lemma {:induction false} FramesAreWhole(size: nat, ops: seq<Op>)
    ensures forall k :: 0 <= k < |Run(size, ops).frames| ==> |Run(size, ops).frames[k].samples| == size
  {
    if ops != [] {
      FramesAreWhole(size, ops[..|ops| - 1]);
    }
  }

  /** For lack of a time stamp no pop ever fails: it fails exactly when samples are missing. */
  lemma PopFailsExactly(size: nat, ops: seq<Op>)
    requires size > 0
    ensures Popped(Run(size, ops).left, size).frames == [] <==> |Run(size, ops).left.samples| < size
  {
    SamplesAreConserved(size, ops);
    hide Run;
  }

  // Aligned use: every block holds half a frame, and the buffer is drained after each push.

  /** The drain loop of the encoder, from a state with fewer than two frames in it. */
  function Drained(s: Pending, size: nat): Outcome
    requires size > 0
    decreases |s.samples|
  {
    if |s.samples| < size || s.ptsMs.None? then Outcome(s, [])
    else
      var later := Drained(Rest(s, size), size);
      Outcome(later.left, [FrameOf(s, size)] + later.frames)
  }

  function FeedAll(size: nat, blocks: seq<Block>): Outcome
    requires size > 0
  {
    if blocks == [] then Outcome(EMPTY, [])
    else
      var before := FeedAll(size, blocks[..|blocks| - 1]);
      var last := Drained(Pushed(before.left, blocks[|blocks| - 1]), size);
      Outcome(last.left, before.frames + last.frames)
  }

  predicate Aligned(size: nat, blocks: seq<Block>) {
    forall k :: 0 <= k < |blocks| ==> 2 * |blocks[k].samples| == size
  }

  function Pair(a: Block, b: Block): OpusInput {
    OpusInput(a.ptsMs, a.samples + b.samples, a.isSilence && b.isSilence, MaxReal(a.peak, b.peak),
              (a.square + b.square) / 2.0)
  }

  /** What waits after an odd number of blocks. */
  function Half(a: Block): Pending {
    Pending(a.samples, Some(a.ptsMs), a.isSilence, a.peak, a.square, 1)
  }

  lemma FirstHalf(size: nat, a: Block)
    requires size > 0 && 2 * |a.samples| == size
    ensures Drained(Pushed(EMPTY, a), size) == Outcome(Half(a), [])
  {
    assert [] + a.samples == a.samples;
  }

  lemma SecondHalf(size: nat, a: Block, b: Block)
    requires size > 0 && 2 * |a.samples| == 2 * |b.samples| == size
    ensures Drained(Pushed(Half(a), b), size) == Outcome(EMPTY, [Pair(a, b)])
  {
    var s := Pushed(Half(a), b);
    assert s.samples[..size] == a.samples + b.samples;
    assert s.samples[size..] == [];
    assert Rest(s, size) == EMPTY;
    assert FrameOf(s, size) == Pair(a, b);
  }

  /** n aligned blocks give n/2 frames; frame k joins blocks 2k and 2k+1, and an odd last block waits. */
  lemma {:induction false} AlignedBlocksPair(size: nat, blocks: seq<Block>)
    requires size > 0 && Aligned(size, blocks)
    ensures |FeedAll(size, blocks).frames| == |blocks| / 2
    ensures forall k :: 0 <= k < |blocks| / 2 ==>
              FeedAll(size, blocks).frames[k] == Pair(blocks[2 * k], blocks[2 * k + 1])
    ensures FeedAll(size, blocks).left == if |blocks| % 2 == 0 then EMPTY else Half(blocks[|blocks| - 1])
  {
    if blocks != [] {
      var n := |blocks| - 1;
      AlignedBlocksPair(size, blocks[..n]);
      if n % 2 == 0 {
        FirstHalf(size, blocks[n]);
      } else {
        SecondHalf(size, blocks[n - 1], blocks[n]);
      }
      var all, before := FeedAll(size, blocks), FeedAll(size, blocks[..n]);
      hide FeedAll, Drained, Pushed, Pair, Half;
      forall k | 0 <= k < |blocks| / 2 ensures all.frames[k] == Pair(blocks[2 * k], blocks[2 * k + 1]) {
        if k < n / 2 {
          assert all.frames[k] == before.frames[k];
        }
      }
    }
  }

  class OpusFrameBuffer {
    const samplesPer20Ms: nat
    var samples: seq<real>
    var pendingPtsMs: Option<u64>
    var pendingIsSilence: bool
    var pendingPeak: real
    var pendingSquares: real
    var pendingBlocks: nat

    ghost function State(): Pending
      reads this
    {
      Pending(samples, pendingPtsMs, pendingIsSilence, pendingPeak, pendingSquares, pendingBlocks)
    }

    constructor (sampleRate: u32)
      ensures State() == EMPTY && samplesPer20Ms == SamplesPer20Ms(sampleRate)
    {
      samplesPer20Ms := SamplesPer20Ms(sampleRate);
      samples, pendingPtsMs, pendingIsSilence := [], None, true;
      pendingPeak, pendingSquares, pendingBlocks := 0.0, 0.0, 0;
    }

    method Push10Ms(b: Block)
      modifies this
      ensures State() == Pushed(old(State()), b)
    {
      if pendingPtsMs.None? {
        pendingPtsMs := Some(b.ptsMs);
        pendingIsSilence := b.isSilence;
        pendingPeak := b.peak;
        pendingSquares := b.square;
        pendingBlocks := 1;
      } else {
        pendingIsSilence := pendingIsSilence && b.isSilence;
        pendingPeak := MaxReal(pendingPeak, b.peak);
        pendingSquares := pendingSquares + b.square;
        pendingBlocks := pendingBlocks + 1;
      }
      samples := samples + b.samples;
    }

    method Pop20Ms() returns (frame: Option<OpusInput>)
      modifies this
      ensures Outcome(State(), if frame.Some? then [frame.value] else []) == Popped(old(State()), samplesPer20Ms)
    {
      if |samples| < samplesPer20Ms || pendingPtsMs.None? {
        return None;
      }
      var ptsMs := pendingPtsMs.value;
      pendingPtsMs := None;
      var out := samples[..samplesPer20Ms];
      samples := samples[samplesPer20Ms..];
      var meanSquare := if pendingBlocks == 0 then 0.0 else pendingSquares / pendingBlocks as real;
      frame := Some(OpusInput(ptsMs, out, pendingIsSilence, pendingPeak, meanSquare));
      pendingIsSilence, pendingPeak, pendingSquares, pendingBlocks := true, 0.0, 0.0, 0;
      if samples != [] {
        pendingPtsMs := Some(LaterBy10(ptsMs));
      }
    }
  }
}

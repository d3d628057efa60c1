/** Opus packets across tier changes: in Red the encoder does not feed its pairing buffer. */
module OpusTiers {
  import opened Words
  import opened OpusFraming
  import opened AudioEncoding
  import P = AudioProtocol
  import R = RegistryModel
  import W = Watchdog

  /** One captured frame and the tier it is encoded in. */
  datatype Turn = Turn(tier: W.Tier, input: Input)

  /** Tuning the encoder for every frame is tuning it when the tier changes: only the last tier counts. */
  function EncodeTurns(e: Encoder, mode: R.AudioMode, turns: seq<Turn>, opus: OpusLibrary)
    : (Encoder, seq<EncodedFrame>)
  {
    if turns == [] then (e, [])
    else
      var (before, sent) := EncodeTurns(e, mode, turns[..|turns| - 1], opus);
      var last := turns[|turns| - 1];
      var (after, more) :=
        EncoderStep(Tuned(before, last.tier, mode), last.input.frame, mode, last.input.fixed, [], opus);
      (after, sent + more)
  }

  /** The positions of the captures that are not encoded in Red. */
  function Fed(turns: seq<Turn>): (s: seq<nat>)
    ensures forall k :: 0 <= k < |s| ==> s[k] < |turns| && turns[s[k]].tier != W.Red
  {
    if turns == [] then []
    else
      var n := |turns| - 1;
      Fed(turns[..n]) + if turns[n].tier == W.Red then [] else [n]
  }

  function InputsFed(turns: seq<Turn>): (s: seq<Input>)
    ensures |s| == |Fed(turns)| && forall k :: 0 <= k < |s| ==> s[k] == turns[Fed(turns)[k]].input
  {
    seq(|Fed(turns)|, k requires 0 <= k < |Fed(turns)| => turns[Fed(turns)[k]].input)
  }

  /** From one position up to another all is Red. */
  predicate RedBetween(turns: seq<Turn>, from: int, to: int) {
    forall i :: 0 <= i < |turns| && from < i < to ==> turns[i].tier == W.Red
  }

  lemma {:induction false} LastFed(turns: seq<Turn>)
    ensures RedBetween(turns, if Fed(turns) == [] then -1 else Fed(turns)[|Fed(turns)| - 1], |turns|)
  {
    if turns != [] {
      var n := |turns| - 1;
      LastFed(turns[..n]);
      assert forall i :: 0 <= i < n ==> turns[i] == turns[..n][i];
    }
  }

  /** They come in order, and what lies between two of them is Red. */
  lemma {:induction false} FedInOrder(turns: seq<Turn>, k: nat)
    requires k + 1 < |Fed(turns)|
    ensures Fed(turns)[k] < Fed(turns)[k + 1] && RedBetween(turns, Fed(turns)[k], Fed(turns)[k + 1])
  {
    var n := |turns| - 1;
    var before := Fed(turns[..n]);
    assert forall i :: 0 <= i < n ==> turns[i] == turns[..n][i];
    if k + 1 < |before| {
      FedInOrder(turns[..n], k);
      assert before[k] < n && before[k + 1] < n;
    } else {
      LastFed(turns[..n]);
    }
  }

  function OpusOnly(frames: seq<EncodedFrame>): seq<EncodedFrame> {
    if frames == [] then []
    else
      var n := |frames| - 1;
      OpusOnly(frames[..n]) + if frames[n].codec == P.Codec.Opus then [frames[n]] else []
  }

  lemma {:induction false} OpusOnlyConcat(a: seq<EncodedFrame>, b: seq<EncodedFrame>)
    ensures OpusOnly(a + b) == OpusOnly(a) + OpusOnly(b)
  {
    if b == [] {
      assert a + b == a;
    } else {
      var n := |b| - 1;
      assert (a + b)[..|a| + n] == a + b[..n];
      OpusOnlyConcat(a, b[..n]);
    }
  }

  lemma {:induction false} PacketsAreOpus(inputs: seq<OpusInput>, calls: nat, rate: u32, opus: OpusLibrary)
    requires NeverFails(opus)
    ensures OpusOnly(Packets(inputs, calls, rate, opus)) == Packets(inputs, calls, rate, opus)
  {
    if inputs != [] {
      var n := |inputs| - 1;
      PacketsAreOpus(inputs[..n], calls, rate, opus);
      assert OpusFrame(inputs[n], opus(calls + n, inputs[n]).value, rate).codec == P.Codec.Opus;
    }
  }

  /** The Opus packets sent are the library applied, call by call, to the blocks of these inputs. */
  ghost predicate Streamed(rate: u32, inputs: seq<Input>, opus: OpusLibrary, e: Encoder, sent: seq<EncodedFrame>)
    requires NeverFails(opus)
  {
    var fed := FeedAll(SamplesPer20Ms(rate), Blocks(inputs));
    && OpusOnly(sent) == Packets(fed.frames, 0, rate, opus)
    && e.codec == R.Opus && e.rate == rate && e.opus.Some? && e.pending == fed.left && e.calls == |fed.frames|
  }

  /** They are the inputs of the captures outside Red. */
  ghost predicate PacketsFed(rate: u32, settings: OpusSettings, mode: R.AudioMode, turns: seq<Turn>, opus: OpusLibrary)
    requires NeverFails(opus)
  {
    var (e, sent) := EncodeTurns(FreshOpus(rate, settings), mode, turns, opus);
    Streamed(rate, InputsFed(turns), opus, e, sent)
  }

  lemma InputsFedGrow(turns: seq<Turn>)
    requires turns != []
    ensures var n := |turns| - 1;
            InputsFed(turns) == InputsFed(turns[..n]) + if turns[n].tier == W.Red then [] else [turns[n].input]
  {
  }

  /** A capture in Red is sent as PCM16 and leaves the pairing buffer as it was. */
  lemma RedStep(e: Encoder, mode: R.AudioMode, input: Input, opus: OpusLibrary)
    requires e.codec.Opus? && e.opus.Some?
    ensures var (after, more) := EncoderStep(Tuned(e, W.Red, mode), input.frame, mode, input.fixed, [], opus);
            && OpusOnly(more) == []
            && after.codec == e.codec && after.rate == e.rate && after.opus.Some? && after.pending == e.pending
            && after.calls == e.calls
  {
    var frame := Pcm16Frame(input.frame, input.fixed, e.rate);
    assert OpusOnly([frame][..0]) == [];
    assert frame.codec == P.Codec.Pcm16;
    hide DrainOpus, Pcm16Frame, Pcm24Frame, OpusFrame;
  }

  lemma RedStreams(rate: u32, inputs: seq<Input>, opus: OpusLibrary, e: Encoder, sent: seq<EncodedFrame>,
                   mode: R.AudioMode, input: Input)
    requires NeverFails(opus) && Streamed(rate, inputs, opus, e, sent)
    ensures var (after, more) := EncoderStep(Tuned(e, W.Red, mode), input.frame, mode, input.fixed, [], opus);
            Streamed(rate, inputs, opus, after, sent + more)
  {
    var (after, more) := EncoderStep(Tuned(e, W.Red, mode), input.frame, mode, input.fixed, [], opus);
    RedStep(e, mode, input, opus);
    OpusOnlyConcat(sent, more);
    hide FeedAll, EncoderStep, Blocks, SamplesPer20Ms, Packets, NeverFails, OpusOnly;
  }

  lemma TunedOutsideRed(e: Encoder, tier: W.Tier, mode: R.AudioMode)
    requires tier != W.Red
    ensures var t := Tuned(e, tier, mode);
            && !t.forcePcm16 && (t.opus.Some? <==> e.opus.Some?)
            && t.codec == e.codec && t.rate == e.rate && t.pending == e.pending && t.calls == e.calls
  {
  }

  /** A capture outside Red goes into the pairing buffer, and what can be drained is encoded. */
  lemma FeedStep(e: Encoder, tier: W.Tier, mode: R.AudioMode, input: Input, opus: OpusLibrary)
    requires NeverFails(opus) && e.codec.Opus? && e.opus.Some? && tier != W.Red
    ensures var (after, more) := EncoderStep(Tuned(e, tier, mode), input.frame, mode, input.fixed, [], opus);
            var d := Drained(Pushed(e.pending, BlockOf(input.frame, input.fixed)), SamplesPer20Ms(e.rate));
            && more == OpusOnly(more) == Packets(d.frames, e.calls, e.rate, opus)
            && after.codec == e.codec && after.rate == e.rate && after.opus.Some? && after.pending == d.left
            && after.calls == e.calls + |d.frames|
  {
    TunedOutsideRed(e, tier, mode);
    hide Drained, EncoderStep, Pushed, BlockOf, SamplesPer20Ms, Packets, NeverFails, Switched, OpusOnly, Tuned;
    var tuned := Tuned(e, tier, mode);
    var d := Drained(Pushed(e.pending, BlockOf(input.frame, input.fixed)), SamplesPer20Ms(e.rate));
    OpusStep(tuned, mode, input, opus);
    SwitchedStays(tuned.opus, mode, d.frames != []);
    PacketsAreOpus(d.frames, e.calls, e.rate, opus);
  }

  lemma FedAnother(size: nat, inputs: seq<Input>, input: Input)
    requires size > 0
    ensures var fed := FeedAll(size, Blocks(inputs));
            var d := Drained(Pushed(fed.left, BlockOf(input.frame, input.fixed)), size);
            FeedAll(size, Blocks(inputs + [input])) == Outcome(d.left, fed.frames + d.frames)
  {
    hide FeedAll, Drained, Pushed, Blocks, BlockOf;
    assert (inputs + [input])[..|inputs|] == inputs;
    FedOneMore(size, inputs + [input]);
  }

  lemma StreamedGrows(rate: u32, inputs: seq<Input>, opus: OpusLibrary, e: Encoder, sent: seq<EncodedFrame>,
                      input: Input, after: Encoder, more: seq<EncodedFrame>)
    requires NeverFails(opus) && Streamed(rate, inputs, opus, e, sent)
    requires var d := Drained(Pushed(e.pending, BlockOf(input.frame, input.fixed)), SamplesPer20Ms(rate));
             && OpusOnly(more) == Packets(d.frames, e.calls, rate, opus)
             && after.codec == e.codec && after.rate == rate && after.opus.Some? && after.pending == d.left
             && after.calls == e.calls + |d.frames|
    ensures Streamed(rate, inputs + [input], opus, after, sent + more)
  {
    hide FeedAll, Drained, Pushed, Blocks, BlockOf, SamplesPer20Ms, Packets, NeverFails, OpusOnly;
    var size := SamplesPer20Ms(rate);
    var fed := FeedAll(size, Blocks(inputs));
    FedAnother(size, inputs, input);
    PacketsSplit(fed.frames, Drained(Pushed(fed.left, BlockOf(input.frame, input.fixed)), size).frames, 0, rate, opus);
    OpusOnlyConcat(sent, more);
  }

  lemma FeedStreams(rate: u32, inputs: seq<Input>, opus: OpusLibrary, e: Encoder, sent: seq<EncodedFrame>,
                    tier: W.Tier, mode: R.AudioMode, input: Input)
    requires NeverFails(opus) && Streamed(rate, inputs, opus, e, sent) && tier != W.Red
    ensures var (after, more) := EncoderStep(Tuned(e, tier, mode), input.frame, mode, input.fixed, [], opus);
            Streamed(rate, inputs + [input], opus, after, sent + more)
  {
    FeedStep(e, tier, mode, input, opus);
    hide FeedAll, Drained, EncoderStep, Pushed, Blocks, BlockOf, SamplesPer20Ms, Packets, NeverFails, OpusOnly, Tuned;
    var (after, more) := EncoderStep(Tuned(e, tier, mode), input.frame, mode, input.fixed, [], opus);
    StreamedGrows(rate, inputs, opus, e, sent, input, after, more);
  }

  lemma OneMoreTurn(e: Encoder, mode: R.AudioMode, turns: seq<Turn>, opus: OpusLibrary)
    requires turns != []
    ensures var n := |turns| - 1;
            var (before, sent) := EncodeTurns(e, mode, turns[..n], opus);
            var (after, more) := EncoderStep(Tuned(before, turns[n].tier, mode), turns[n].input.frame, mode,
                                             turns[n].input.fixed, [], opus);
            EncodeTurns(e, mode, turns, opus) == (after, sent + more)
  {
    hide EncoderStep, Tuned;
  }

  lemma {:induction false} FedGrows(rate: u32, settings: OpusSettings, mode: R.AudioMode, turns: seq<Turn>,
                                    opus: OpusLibrary)
    requires NeverFails(opus) && turns != [] && PacketsFed(rate, settings, mode, turns[..|turns| - 1], opus)
    ensures PacketsFed(rate, settings, mode, turns, opus)
  {
    hide EncodeTurns, Streamed, NeverFails, EncoderStep, Tuned, InputsFed, FreshOpus;
    var n := |turns| - 1;
    var (before, sent) := EncodeTurns(FreshOpus(rate, settings), mode, turns[..n], opus);
    var inputs := InputsFed(turns[..n]);
    OneMoreTurn(FreshOpus(rate, settings), mode, turns, opus);
    InputsFedGrow(turns);
    if turns[n].tier == W.Red {
      assert InputsFed(turns) == inputs;
      RedStreams(rate, inputs, opus, before, sent, mode, turns[n].input);
    } else {
      FeedStreams(rate, inputs, opus, before, sent, turns[n].tier, mode, turns[n].input);
    }
  }

  lemma {:induction false} FedStream(rate: u32, settings: OpusSettings, mode: R.AudioMode, turns: seq<Turn>,
                                     opus: OpusLibrary)
    requires NeverFails(opus)
    ensures PacketsFed(rate, settings, mode, turns, opus)
  {
    if turns != [] {
      FedStream(rate, settings, mode, turns[..|turns| - 1], opus);
      FedGrows(rate, settings, mode, turns, opus);
    } else {
      assert Blocks(InputsFed(turns)) == [];
    }
  }

  lemma PacketsPairBlocks(rate: u32, settings: OpusSettings, mode: R.AudioMode, turns: seq<Turn>, opus: OpusLibrary,
                          k: nat)
    requires NeverFails(opus) && Aligned(SamplesPer20Ms(rate), Blocks(InputsFed(turns)))
    ensures var out := OpusOnly(EncodeTurns(FreshOpus(rate, settings), mode, turns, opus).1);
            var blocks := Blocks(InputsFed(turns));
            && |out| == |blocks| / 2
            && (k < |out| ==>
                  var pair := Pair(blocks[2 * k], blocks[2 * k + 1]);
                  out[k] == OpusFrame(pair, opus(k, pair).value, rate))
  {
    var size, blocks := SamplesPer20Ms(rate), Blocks(InputsFed(turns));
    FedStream(rate, settings, mode, turns, opus);
    hide EncodeTurns, FeedAll, SamplesPer20Ms, Pair, OpusFrame, Packets, Blocks, FreshOpus, OpusOnly, InputsFed,
         Aligned;
    AlignedBlocksPair(size, blocks);
    var frames := FeedAll(size, blocks).frames;
    PacketCount(frames, rate, opus);
    if k < |frames| {
      PacketAt(frames, rate, opus, k);
    }
  }

  lemma Neighbours(turns: seq<Turn>, k: nat)
    requires k + 1 < |Fed(turns)|
    ensures var i, j := Fed(turns)[k], Fed(turns)[k + 1];
            i < j < |turns| && (j == i + 1 <==> turns[i + 1].tier != W.Red)
  {
    FedInOrder(turns, k);
    hide Fed;
  }

  function BlockAt(turns: seq<Turn>, i: nat): Block
    requires i < |turns|
  {
    BlockOf(turns[i].input.frame, turns[i].input.fixed)
  }

  lemma BlocksAre(rate: u32, turns: seq<Turn>)
    requires forall i :: 0 <= i < |turns| ==> 2 * |turns[i].input.fixed| == SamplesPer20Ms(rate)
    ensures Aligned(SamplesPer20Ms(rate), Blocks(InputsFed(turns))) && |Blocks(InputsFed(turns))| == |Fed(turns)|
    ensures forall k :: 0 <= k < |Fed(turns)| ==> Blocks(InputsFed(turns))[k] == BlockAt(turns, Fed(turns)[k])
  {
    hide Fed, SamplesPer20Ms;
  }

  lemma FirstStamp(turns: seq<Turn>, i: nat, b: Block, k: nat, rate: u32, opus: OpusLibrary)
    requires i < |turns| && NeverFails(opus)
    ensures var pair := Pair(BlockAt(turns, i), b);
            OpusFrame(pair, opus(k, pair).value, rate).ptsMs == turns[i].input.frame.ptsMs
  {
  }

  /**
   * Packet k joins the captures fed 2k-th and (2k+1)-th, under the first one's time stamp. They are neighbours
   * exactly when the capture right after the first is not encoded in Red: else a packet joins the last block before
   * Red to the first one after it.
   */
  lemma PacketsAcrossTiers(rate: u32, settings: OpusSettings, mode: R.AudioMode, turns: seq<Turn>, opus: OpusLibrary,
                           k: nat)
    requires NeverFails(opus)
    requires forall i :: 0 <= i < |turns| ==> 2 * |turns[i].input.fixed| == SamplesPer20Ms(rate)
    ensures var out := OpusOnly(EncodeTurns(FreshOpus(rate, settings), mode, turns, opus).1);
            && |out| == |Fed(turns)| / 2
            && (k < |out| ==>
                  var i, j := Fed(turns)[2 * k], Fed(turns)[2 * k + 1];
                  && i < j < |turns|
                  && var pair := Pair(BlockAt(turns, i), BlockAt(turns, j));
                  && out[k] == OpusFrame(pair, opus(k, pair).value, rate)
                  && out[k].ptsMs == turns[i].input.frame.ptsMs
                  && (j == i + 1 <==> turns[i + 1].tier != W.Red))
  {
    hide *;
    BlocksAre(rate, turns);
    PacketsPairBlocks(rate, settings, mode, turns, opus, k);
    if k < |Fed(turns)| / 2 {
      Neighbours(turns, 2 * k);
      FirstStamp(turns, Fed(turns)[2 * k], BlockAt(turns, Fed(turns)[2 * k + 1]), k, rate, opus);
    }
  }

  /** Three captures, the second in Red: one packet joins the first to the third. */
  lemma RedIsPassedOver(rate: u32, settings: OpusSettings, mode: R.AudioMode, a: Input, b: Input, c: Input,
                        opus: OpusLibrary)
    requires NeverFails(opus)
    requires 2 * |a.fixed| == 2 * |b.fixed| == 2 * |c.fixed| == SamplesPer20Ms(rate)
    ensures var turns := [Turn(W.Green, a), Turn(W.Red, b), Turn(W.Green, c)];
            var out := OpusOnly(EncodeTurns(FreshOpus(rate, settings), mode, turns, opus).1);
            var pair := Pair(BlockOf(a.frame, a.fixed), BlockOf(c.frame, c.fixed));
            out == [OpusFrame(pair, opus(0, pair).value, rate)] && out[0].ptsMs == a.frame.ptsMs
  {
    var turns := [Turn(W.Green, a), Turn(W.Red, b), Turn(W.Green, c)];
    assert turns[..2][..1] == turns[..1] && turns[..1][..0] == [];
    assert Fed(turns[..1]) == [0];
    assert Fed(turns[..2]) == [0];
    assert Fed(turns) == [0, 2];
    hide EncodeTurns, SamplesPer20Ms, FreshOpus, OpusOnly, Fed, Pair, OpusFrame, BlockOf;
    PacketsAcrossTiers(rate, settings, mode, turns, opus, 0);
  }
}

/** The encode worker: each captured frame is encoded once per group of clients and fanned out to them,
    every datagram numbered from one shared counter. */
module EncodeWorker {
  import opened Words
  import opened WireFields
  import opened DataPlane
  import opened AudioEncoding
  import P = AudioProtocol
  import Rates = FrameDurations
  import Fragmentation
  import Parser = LasPacketParser
  import LasPackets
  import ProtocolRoundTrips
  import SerialNumbers
  import RegistryInvariants
  import SessionRegistry
  import R = RegistryModel

  /** One datagram for one client. number is its place in the numbering as if the 32-bit counter never wrapped. */
  datatype Wire = Wire(client: R.Snapshot, number: nat, codec: P.Codec, bytes: Bytes)

  /** One encoded frame and the clients it goes to. */
  datatype Sending = Sending(frame: EncodedFrame, recipients: seq<R.Snapshot>)

  function LegacyFlags(f: EncodedFrame): byte {
    if f.isSilence then 1 else 0
  }

  function V2Flags(p: P.LegacyPacket, modeChanged: bool, firstPacket: bool): u16 {
    (if p.flags % 2 == 1 then 1 else 0) + if modeChanged then 2 + 4 else if firstPacket then 4 else 0
  }

  function PacketOf(f: EncodedFrame, sequence: u32): P.LegacyPacket {
    P.LegacyPacket(1, LegacyFlags(f), sequence, f.ptsMs, f.sampleRate, f.channels, f.framesPerPacket, f.payload)
  }

  /** Bit 0 says silence, bit 1 a mode change, bit 2 a break in the stream. */
  lemma FlagsMean(f: EncodedFrame, sequence: u32, modeChanged: bool, firstPacket: bool)
    ensures var flags := V2Flags(PacketOf(f, sequence), modeChanged, firstPacket);
            && (flags % 2 == 1 <==> f.isSilence)
            && (flags / 2 % 2 == 1 <==> modeChanged)
            && (flags / 4 == 1 <==> modeChanged || firstPacket)
  {
    var silence, marks := LegacyFlags(f), if modeChanged then 6 else if firstPacket then 4 else 0;
    assert V2Flags(PacketOf(f, sequence), modeChanged, firstPacket) == silence + marks;
  }

  // What one frame puts on the wire.

  /** The datagrams for one client; every client's numbering starts at the frame's own number. */
  function PacketsFor(f: EncodedFrame, start: nat, c: R.Snapshot): seq<Bytes> {
    var p := PacketOf(f, ToU32(start));
    EncodedPackets(p, c.plane, V2Flags(p, c.modeChanged, c.firstPacket), f.codec, ToU32(start)).0
  }

  function WiresFor(f: EncodedFrame, start: nat, c: R.Snapshot): (w: seq<Wire>)
    ensures |w| == |PacketsFor(f, start, c)|
    ensures forall k :: 0 <= k < |w| ==> w[k] == Wire(c, start + k, f.codec, PacketsFor(f, start, c)[k])
  {
    var packets := PacketsFor(f, start, c);
    seq(|packets|, k requires 0 <= k < |packets| => Wire(c, start + k, f.codec, packets[k]))
  }

  /** How many datagrams the frame takes on a data plane. */
  function Pieces(f: EncodedFrame, plane: Format): nat {
    if f.codec != P.Codec.Pcm24 then 1
    else if plane.LegacyLas1? || FragCount(|f.payload|) > MAX_FRAGS then 0
    else FragCount(|f.payload|)
  }

  lemma PiecesAre(f: EncodedFrame, start: nat, c: R.Snapshot)
    ensures |WiresFor(f, start, c)| == Pieces(f, c.plane)
  {
    hide EncodePacket, WiresFor;
  }

  /** Numbers drawn from the counter beyond the first. */
  function Extras(f: EncodedFrame, recipients: seq<R.Snapshot>): nat {
    if recipients == [] then 0
    else Extras(f, recipients[..|recipients| - 1]) + Max(Pieces(f, recipients[|recipients| - 1].plane) - 1, 0)
  }

  function FanOut(f: EncodedFrame, start: nat, recipients: seq<R.Snapshot>): seq<Wire> {
    if recipients == [] then []
    else
      FanOut(f, start, recipients[..|recipients| - 1]) + WiresFor(f, start, recipients[|recipients| - 1])
  }

  function After(start: nat, s: Sending): nat {
    start + 1 + Extras(s.frame, s.recipients)
  }

  // A whole run of frames.

  function Counter(start: nat, sendings: seq<Sending>): nat {
    if sendings == [] then start
    else After(Counter(start, sendings[..|sendings| - 1]), sendings[|sendings| - 1])
  }

  function Trace(start: nat, sendings: seq<Sending>): seq<Wire> {
    if sendings == [] then []
    else
      var n := |sendings| - 1;
      Trace(start, sendings[..n])
      + FanOut(sendings[n].frame, Counter(start, sendings[..n]), sendings[n].recipients)
  }

  // Counting.

  /** N fragments for each of R clients take 1 + R*(N-1) numbers. */
  lemma {:induction false} NumbersPerFrame(start: nat, f: EncodedFrame, recipients: seq<R.Snapshot>, pieces: nat)
    requires pieces >= 1 && forall k :: 0 <= k < |recipients| ==> Pieces(f, recipients[k].plane) == pieces
    ensures After(start, Sending(f, recipients)) == start + 1 + |recipients| * (pieces - 1)
  {
    hide Pieces;
    if recipients != [] {
      var n := |recipients| - 1;
      NumbersPerFrame(start, f, recipients[..n], pieces);
      assert |recipients| * (pieces - 1) == n * (pieces - 1) + (pieces - 1);
    }
  }

  lemma {:induction false} FanOutWithin(f: EncodedFrame, start: nat, recipients: seq<R.Snapshot>)
    ensures forall w :: w in FanOut(f, start, recipients) ==> start <= w.number <= start + Extras(f, recipients)
  {
    hide PacketsFor, Pieces;
    if recipients != [] {
      var n := |recipients| - 1;
      FanOutWithin(f, start, recipients[..n]);
      PiecesAre(f, start, recipients[n]);
    }
  }

  lemma {:induction false} CounterGrows(start: nat, sendings: seq<Sending>, j: nat)
    requires j <= |sendings|
    ensures Counter(start, sendings[..j]) + |sendings| - j <= Counter(start, sendings)
  {
    if j < |sendings| {
      var n := |sendings| - 1;
      assert sendings[..n][..j] == sendings[..j];
      CounterGrows(start, sendings[..n], j);
    } else {
      assert sendings[..j] == sendings;
    }
  }

  /** The datagrams of the j-th frame of a run. */
  function SentBy(start: nat, sendings: seq<Sending>, j: nat): seq<Wire>
    requires j < |sendings|
  {
    FanOut(sendings[j].frame, Counter(start, sendings[..j]), sendings[j].recipients)
  }

  lemma SentByPrefix(start: nat, sendings: seq<Sending>, j: nat)
    requires j < |sendings| - 1
    ensures SentBy(start, sendings[..|sendings| - 1], j) == SentBy(start, sendings, j)
  {
    assert sendings[..|sendings| - 1][..j] == sendings[..j];
  }

  lemma TraceLast(start: nat, sendings: seq<Sending>)
    requires sendings != []
    ensures Trace(start, sendings)
         == Trace(start, sendings[..|sendings| - 1]) + SentBy(start, sendings, |sendings| - 1)
  {
  }

  ghost predicate SentBySome(start: nat, sendings: seq<Sending>, w: Wire) {
    exists j :: 0 <= j < |sendings| && w in SentBy(start, sendings, j)
  }

  lemma SomeOrLast(start: nat, sendings: seq<Sending>, w: Wire)
    requires sendings != []
    ensures var n := |sendings| - 1;
            SentBySome(start, sendings, w) <==> SentBySome(start, sendings[..n], w) || w in SentBy(start, sendings, n)
  {
    hide SentBy;
    var n := |sendings| - 1;
    forall j | 0 <= j < n ensures SentBy(start, sendings[..n], j) == SentBy(start, sendings, j) {
      SentByPrefix(start, sendings, j);
    }
  }

  /** A trace holds exactly the datagrams of its frames. */
  lemma {:induction false} TraceIsSent(start: nat, sendings: seq<Sending>, w: Wire)
    ensures w in Trace(start, sendings) <==> SentBySome(start, sendings, w)
  {
    if sendings != [] {
      TraceIsSent(start, sendings[..|sendings| - 1], w);
      TraceLast(start, sendings);
      SomeOrLast(start, sendings, w);
      hide Trace, SentBy, SentBySome;
    }
  }

  /** Different frames never share a number: all numbers of the earlier frame come first. */
  lemma FramesAreApart(start: nat, sendings: seq<Sending>, i: nat, j: nat, a: Wire, b: Wire)
    requires i < j < |sendings| && a in SentBy(start, sendings, i) && b in SentBy(start, sendings, j)
    ensures a.number < b.number
  {
    FanOutWithin(sendings[i].frame, Counter(start, sendings[..i]), sendings[i].recipients);
    FanOutWithin(sendings[j].frame, Counter(start, sendings[..j]), sendings[j].recipients);
    assert sendings[..i + 1][..i] == sendings[..i];
    assert sendings[..j][..i + 1] == sendings[..i + 1];
    assert Counter(start, sendings[..i + 1]) == After(Counter(start, sendings[..i]), sendings[i]);
    CounterGrows(start, sendings[..j], i + 1);
  }

  // One client.

  predicate DistinctIds(clients: seq<R.Snapshot>) {
    forall j, k :: 0 <= j < k < |clients| ==> clients[j].id != clients[k].id
  }

  /** The client's datagrams come in the order of their numbers, none twice. */
  predicate Increasing(trace: seq<Wire>, id: nat) {
    forall a, b :: 0 <= a < b < |trace| && trace[a].client.id == id && trace[b].client.id == id ==>
                     trace[a].number < trace[b].number
  }

  lemma IncreasingConcat(first: seq<Wire>, second: seq<Wire>, id: nat)
    requires Increasing(first, id) && Increasing(second, id)
    requires forall x, y :: x in first && y in second && x.client.id == id && y.client.id == id ==> x.number < y.number
    ensures Increasing(first + second, id)
  {
    var all := first + second;
    forall a, b | 0 <= a < b < |all| && all[a].client.id == id && all[b].client.id == id
      ensures all[a].number < all[b].number
    {
      if a < |first| <= b {
        assert all[a] in first && all[b] in second;
      }
    }
  }

  lemma {:induction false} FanOutReaches(f: EncodedFrame, start: nat, recipients: seq<R.Snapshot>)
    ensures forall w :: w in FanOut(f, start, recipients) ==> w.client in recipients && w.codec == f.codec
  {
    hide PacketsFor;
    if recipients != [] {
      FanOutReaches(f, start, recipients[..|recipients| - 1]);
    }
  }

  lemma {:induction false} FanOutIncreasing(f: EncodedFrame, start: nat, recipients: seq<R.Snapshot>, id: nat)
    requires DistinctIds(recipients)
    ensures Increasing(FanOut(f, start, recipients), id)
  {
    if recipients != [] {
      var n := |recipients| - 1;
      hide PacketsFor, FanOut;
      FanOutIncreasing(f, start, recipients[..n], id);
      FanOutReaches(f, start, recipients[..n]);
      IncreasingConcat(FanOut(f, start, recipients[..n]), WiresFor(f, start, recipients[n]), id);
      assert FanOut(f, start, recipients) == FanOut(f, start, recipients[..n]) + WiresFor(f, start, recipients[n]) by {
        FanOutLast(f, start, recipients);
      }
    }
  }

  lemma FanOutLast(f: EncodedFrame, start: nat, recipients: seq<R.Snapshot>)
    requires recipients != []
    ensures var n := |recipients| - 1;
            FanOut(f, start, recipients) == FanOut(f, start, recipients[..n]) + WiresFor(f, start, recipients[n])
  {
  }

  lemma {:induction false} TraceWithin(start: nat, sendings: seq<Sending>)
    ensures start <= Counter(start, sendings)
    ensures forall w :: w in Trace(start, sendings) ==> start <= w.number < Counter(start, sendings)
  {
    if sendings != [] {
      var n := |sendings| - 1;
      TraceWithin(start, sendings[..n]);
      FanOutWithin(sendings[n].frame, Counter(start, sendings[..n]), sendings[n].recipients);
      hide FanOut, Extras;
    }
  }

  /** Over any run, whatever the grouping and the fragment counts, every client's numbers strictly increase. */
  lemma {:induction false} ClientNumbersIncrease(start: nat, sendings: seq<Sending>, id: nat)
    requires forall j :: 0 <= j < |sendings| ==> DistinctIds(sendings[j].recipients)
    ensures Increasing(Trace(start, sendings), id)
  {
    if sendings != [] {
      var n := |sendings| - 1;
      ClientNumbersIncrease(start, sendings[..n], id);
      var counter := Counter(start, sendings[..n]);
      FanOutIncreasing(sendings[n].frame, counter, sendings[n].recipients, id);
      FanOutWithin(sendings[n].frame, counter, sendings[n].recipients);
      TraceWithin(start, sendings[..n]);
      hide FanOut, Counter, Increasing, DistinctIds;
      IncreasingConcat(Trace(start, sendings[..n]), FanOut(sendings[n].frame, counter, sendings[n].recipients), id);
    }
  }

  // Gaps in one client's numbers.

  /** No other recipient of the frame takes more than one datagram. */
  predicate TakesTheExtras(f: EncodedFrame, recipients: seq<R.Snapshot>, k: nat)
    requires k < |recipients|
  {
    forall other :: 0 <= other < |recipients| && other != k ==> Pieces(f, recipients[other].plane) <= 1
  }

  lemma {:induction false} NoExtras(f: EncodedFrame, recipients: seq<R.Snapshot>)
    ensures Extras(f, recipients) == 0 <==>
              forall k :: 0 <= k < |recipients| ==> Pieces(f, recipients[k].plane) <= 1
  {
    hide Pieces;
    if recipients != [] {
      NoExtras(f, recipients[..|recipients| - 1]);
    }
  }

  lemma {:induction false} ExtrasAre(f: EncodedFrame, recipients: seq<R.Snapshot>, k: nat)
    requires k < |recipients|
    ensures Extras(f, recipients) >= Max(Pieces(f, recipients[k].plane) - 1, 0)
    ensures Extras(f, recipients) == Max(Pieces(f, recipients[k].plane) - 1, 0) <==> TakesTheExtras(f, recipients, k)
  {
    hide Pieces;
    var n := |recipients| - 1;
    if k < n {
      ExtrasAre(f, recipients[..n], k);
      assert TakesTheExtras(f, recipients, k) <==>
               TakesTheExtras(f, recipients[..n], k) && Pieces(f, recipients[n].plane) <= 1;
    } else {
      NoExtras(f, recipients[..n]);
    }
  }

  /** The first number that frame i leaves to the frames after it, and the ones they take at least. */
  lemma NumbersBetween(start: nat, sendings: seq<Sending>, i: nat, j: nat)
    requires i < j < |sendings|
    ensures Counter(start, sendings[..j]) >= After(Counter(start, sendings[..i]), sendings[i]) + j - i - 1
    ensures j == i + 1 ==> Counter(start, sendings[..j]) == After(Counter(start, sendings[..i]), sendings[i])
  {
    assert sendings[..i + 1][..i] == sendings[..i];
    assert sendings[..j][..i + 1] == sendings[..i + 1];
    CounterGrows(start, sendings[..j], i + 1);
  }

  /**
   * From frame i to frame j a client's numbers are consecutive exactly when no other frame is sent between the two
   * and no other recipient of frame i needs a second datagram. So every other group's frame, and every fragment for
   * another recipient, leaves a gap that the client takes for lost packets.
   */
  lemma GaplessExactly(start: nat, sendings: seq<Sending>, i: nat, j: nat, a: nat, b: nat)
    requires i < j < |sendings| && a < |sendings[i].recipients| && b < |sendings[j].recipients|
    requires sendings[i].recipients[a].id == sendings[j].recipients[b].id
    requires var first := WiresFor(sendings[i].frame, Counter(start, sendings[..i]), sendings[i].recipients[a]);
             var second := WiresFor(sendings[j].frame, Counter(start, sendings[..j]), sendings[j].recipients[b]);
             first != [] && second != []
    ensures var first := WiresFor(sendings[i].frame, Counter(start, sendings[..i]), sendings[i].recipients[a]);
            var second := WiresFor(sendings[j].frame, Counter(start, sendings[..j]), sendings[j].recipients[b]);
            second[0].number == first[|first| - 1].number + 1 <==>
              j == i + 1 && TakesTheExtras(sendings[i].frame, sendings[i].recipients, a)
  {
    hide Pieces, PacketsFor, Extras, Counter, TakesTheExtras;
    PiecesAre(sendings[i].frame, Counter(start, sendings[..i]), sendings[i].recipients[a]);
    ExtrasAre(sendings[i].frame, sendings[i].recipients, a);
    NumbersBetween(start, sendings, i, j);
  }

  // What a receiver reads.

  /** The wire sequence number of a datagram, in whichever of the three formats it decodes. */
  function SequenceOn(b: Bytes): Option<u32> {
    match (P.DecodeLegacy(b), P.DecodeV2(b), P.DecodeV3(b))
    case (Ok(p), _, _) => Some(p.sequence)
    case (_, Ok(p), _) => Some(p.header.common.sequence)
    case (_, _, Ok(p)) => Some(p.header.common.sequence)
    case _ => None
  }

  lemma SingleCarries(p: P.LegacyPacket, plane: Format, flags: u16, codec: P.Codec)
    requires |p.payload| < TWO_16
    ensures SequenceOn(EncodePacket(p, plane, flags, codec)) == Some(p.sequence)
  {
    hide P.EncodeLegacy, P.EncodeV2, P.DecodeLegacy, P.DecodeV2, P.DecodeV3, P.DetectKind;
    var b := EncodePacket(p, plane, flags, codec);
    ProtocolRoundTrips.DecodersDisjoint(b);
    match plane
    case LegacyLas1 => ProtocolRoundTrips.LegacyDecodeOfEncode(p);
    case V2Header => ProtocolRoundTrips.V2DecodeOfEncode(P.PacketV2(V2HeaderPreview(p, flags, codec), p.payload));
  }

  lemma FragmentCarries(p: P.LegacyPacket, flags: u16, next: u32, k: nat)
    requires Fragmentation.Fragmentable(p) && k < |Fragmentation.Datagrams(p, flags, next)|
    ensures SequenceOn(Fragmentation.Datagrams(p, flags, next)[k]) == Some(ToU32(next + k))
  {
    hide P.DecodeLegacy, P.DecodeV2, P.DecodeV3, Fragmentation.Datagrams;
    ProtocolRoundTrips.DecodersDisjoint(Fragmentation.Datagrams(p, flags, next)[k]);
    Fragmentation.DatagramDecodes(p, flags, next, k);
  }

  lemma NextWraps(start: nat, k: nat)
    ensures ToU32(ToU32(start) + k) == ToU32(start + k)
  {
  }

  /** Every datagram decodes to its own number, cut to 32 bits. */
  lemma WireCarriesItsNumber(f: EncodedFrame, start: nat, c: R.Snapshot, k: nat)
    requires k < |WiresFor(f, start, c)| && (f.codec == P.Codec.Pcm24 || |f.payload| < TWO_16)
    ensures SequenceOn(WiresFor(f, start, c)[k].bytes) == Some(ToU32(WiresFor(f, start, c)[k].number))
  {
    var p := PacketOf(f, ToU32(start));
    var flags := V2Flags(p, c.modeChanged, c.firstPacket);
    NextWraps(start, k);
    hide SequenceOn, EncodePacket, V2Flags;
    if f.codec == P.Codec.Pcm24 {
      FragmentCarries(p, flags, ToU32(start), k);
    } else {
      SingleCarries(p, c.plane, flags, f.codec);
    }
  }

  lemma SignedOfWord(n: nat)
    ensures ToInt32(ToU32(n)) == ToInt32(n)
  {
  }

  /** A receiver that compares sequence numbers modulo 2^32 sees two datagrams of one client in the order in
      which they were sent, as long as fewer than 2^31 numbers lie between them. */
  lemma ReceiverSeesTheOrder(start: nat, sendings: seq<Sending>, id: nat, a: nat, b: nat)
    requires forall j :: 0 <= j < |sendings| ==> DistinctIds(sendings[j].recipients)
    requires a < b < |Trace(start, sendings)|
    requires Trace(start, sendings)[a].client.id == id && Trace(start, sendings)[b].client.id == id
    requires Trace(start, sendings)[b].number - Trace(start, sendings)[a].number < TWO_31
    ensures var x, y := ToU32(Trace(start, sendings)[a].number), ToU32(Trace(start, sendings)[b].number);
            SerialNumbers.IsOlder(ToInt32(x), ToInt32(y)) && x != y
  {
    ClientNumbersIncrease(start, sendings, id);
    var m, n := Trace(start, sendings)[a].number, Trace(start, sendings)[b].number;
    hide Trace, DistinctIds;
    SignedOfWord(m);
    SignedOfWord(n);
    SerialNumbers.WindowRefinesOrder(m, n);
    hide ToInt32, ToU32;
  }

  // Data planes and codecs.

  predicate Carried(c: R.Snapshot) {
    c.plane.LegacyLas1? ==> c.codec == R.Pcm16
  }

  /** What the flags of a received packet say: silence, and in version 2 a mode change and a break in the stream. */
  predicate FlagsTell(flags: int, isSilence: bool, c: R.Snapshot) {
    && (flags % 2 == 1 <==> isSilence)
    && (c.plane.V2Header? ==>
          (flags / 2 % 2 == 1 <==> c.modeChanged) && (flags / 4 == 1 <==> c.modeChanged || c.firstPacket))
  }

  /** The data plane's version; the time stamp, rate and channels of the frame; and its frame count, on LAS1 always, in
      version 2 for 10 ms at an encoder's rate. */
  predicate FormatTells(p: LasPackets.LasPacket, f: EncodedFrame, plane: Format) {
    && p.protocolVersion == (if plane.LegacyLas1? then 1 else 2)
    && p.timestampMs == ToInt64(f.ptsMs) && p.sampleRate == ToInt32(f.sampleRate) && p.channels == f.channels
    && (plane.LegacyLas1? || (Rates.EncoderRate(f.sampleRate) && 100 * f.framesPerPacket == f.sampleRate) ==>
          p.framesPerPacket == f.framesPerPacket)
  }

  /** The Android parser reads the datagram as this PCM16 frame, under this number and with the client's marks. */
  predicate ReadsPcm16(bytes: Bytes, f: EncodedFrame, number: nat, c: R.Snapshot) {
    var parsed := Parser.Parse(bytes);
    && parsed.Some?
    && parsed.value.codec == LasPackets.CODEC_PCM16
    && parsed.value.sequence == ToInt32(number)
    && parsed.value.payload == f.payload
    && FlagsTell(parsed.value.flags, f.isSilence, c)
    && FormatTells(parsed.value, f, c.plane)
  }

  lemma Pcm16OnLas1(f: EncodedFrame, start: nat, c: R.Snapshot)
    requires f.codec == P.Codec.Pcm16 && |f.payload| < TWO_16 && c.plane.LegacyLas1?
    ensures ReadsPcm16(EncodePacket(PacketOf(f, ToU32(start)), c.plane, 0, f.codec), f, start, c)
  {
    hide P.EncodeLegacy, P.DecodeLegacy, Parser.Parse;
    var p := PacketOf(f, ToU32(start));
    ProtocolRoundTrips.LegacyDecodeOfEncode(p);
    Parser.AgreesOnLegacy(P.EncodeLegacy(p));
    SignedOfWord(start);
  }

  lemma TenMilliseconds(frames: u16, rate: u32)
    requires Rates.EncoderRate(rate) && 100 * frames == rate
    ensures Rates.FramesReceived(frames, rate) == frames
  {
    hide Rates.FramesReceived;
    Rates.ExactAt(rate, 1);
  }

  lemma Pcm16OnV2(f: EncodedFrame, start: nat, c: R.Snapshot)
    requires f.codec == P.Codec.Pcm16 && |f.payload| < TWO_16 && c.plane.V2Header?
    ensures var p := PacketOf(f, ToU32(start));
            ReadsPcm16(EncodePacket(p, c.plane, V2Flags(p, c.modeChanged, c.firstPacket), f.codec), f, start, c)
  {
    hide P.EncodeV2, P.DecodeV2, Parser.Parse;
    var p := PacketOf(f, ToU32(start));
    var flags := V2Flags(p, c.modeChanged, c.firstPacket);
    FlagsMean(f, ToU32(start), c.modeChanged, c.firstPacket);
    hide V2Flags;
    var v2 := P.PacketV2(V2HeaderPreview(p, flags, f.codec), p.payload);
    ProtocolRoundTrips.V2DecodeOfEncode(v2);
    Parser.AgreesOnV2(P.EncodeV2(v2));
    SignedOfWord(start);
    if Rates.EncoderRate(f.sampleRate) && 100 * f.framesPerPacket == f.sampleRate {
      TenMilliseconds(f.framesPerPacket, f.sampleRate);
    }
  }

  /** A PCM16 frame reaches each client in one datagram, whatever its data plane. */
  lemma Pcm16Arrives(f: EncodedFrame, start: nat, c: R.Snapshot)
    requires f.codec == P.Codec.Pcm16 && |f.payload| < TWO_16
    ensures |WiresFor(f, start, c)| == 1 && ReadsPcm16(WiresFor(f, start, c)[0].bytes, f, start, c)
  {
    hide ReadsPcm16;
    PiecesAre(f, start, c);
    match c.plane
    case LegacyLas1 => Pcm16OnLas1(f, start, c);
    case V2Header => Pcm16OnV2(f, start, c);
  }

  /** A gated client misses a frame altogether exactly when the frame needs more than 255 fragments. */
  lemma MissedExactly(f: EncodedFrame, start: nat, c: R.Snapshot, forcePcm16: bool)
    requires Carried(c) && Allowed(c.codec, forcePcm16, f.codec)
    ensures WiresFor(f, start, c) == [] <==>
              f.codec == P.Codec.Pcm24 && |f.payload| > MAX_FRAGS * MAX_PCM24_FRAG_PAYLOAD_BYTES
  {
    hide WiresFor;
    PiecesAre(f, start, c);
  }

  /** What the registry hands out is what the worker relies on. */
  lemma RegistryFeedsWorker(s: R.Registry, out: seq<R.Snapshot>)
    requires RegistryInvariants.Inv(s) && SessionRegistry.Lists(out, R.Snapshots(s), R.Reachable(s))
    ensures DistinctIds(out)
    ensures forall k :: 0 <= k < |out| ==> Carried(out[k])
  {
    hide RegistryInvariants.QueueExact, RegistryInvariants.UniqueKeys;
    forall k | 0 <= k < |out| ensures Carried(out[k]) {
      var id := out[k].id;
      assert RegistryInvariants.Sound(id, s.clients[id], s.served);
    }
  }

  // Grouping by encoder.

  datatype Key = Key(codec: R.CodecSelection, mode: R.AudioMode, rate: u32)

  function KeyOf(c: R.Snapshot): Key {
    Key(c.codec, c.mode, Rates.NormalizeEncoderSampleRate(c.sampleRate))
  }

  /** The clients of one group, in the order of the job. */
  function Members(clients: seq<R.Snapshot>, key: Key): seq<R.Snapshot> {
    if clients == [] then []
    else
      var n := |clients| - 1;
      Members(clients[..n], key) + if KeyOf(clients[n]) == key then [clients[n]] else []
  }

  lemma {:induction false} MembersAre(clients: seq<R.Snapshot>, key: Key, c: R.Snapshot)
    ensures c in Members(clients, key) <==> c in clients && KeyOf(c) == key
  {
    hide KeyOf;
    if clients != [] {
      var n := |clients| - 1;
      assert clients == clients[..n] + [clients[n]];
      MembersAre(clients[..n], key, c);
    }
  }

  lemma {:induction false} MembersDistinct(clients: seq<R.Snapshot>, key: Key)
    requires DistinctIds(clients)
    ensures DistinctIds(Members(clients, key))
  {
    hide KeyOf;
    if clients != [] {
      var n := |clients| - 1;
      MembersDistinct(clients[..n], key);
      forall c | c in Members(clients[..n], key) ensures c.id != clients[n].id {
        MembersAre(clients[..n], key, c);
      }
    }
  }

  function KeysOf(clients: seq<R.Snapshot>): set<Key> {
    set c | c in clients :: KeyOf(c)
  }

  ghost predicate Grouped(clients: seq<R.Snapshot>, groups: map<Key, seq<R.Snapshot>>) {
    && groups.Keys == KeysOf(clients)
    && forall key :: key in groups ==> groups[key] == Members(clients, key)
  }

  lemma GroupOneMore(clients: seq<R.Snapshot>, groups: map<Key, seq<R.Snapshot>>, c: R.Snapshot)
    requires Grouped(clients, groups)
    ensures var key := KeyOf(c);
            Grouped(clients + [c], groups[key := (if key in groups then groups[key] else []) + [c]])
  {
    var all, key := clients + [c], KeyOf(c);
    assert all[..|clients|] == clients;
    KeysOneMore(clients, c);
    if key !in groups {
      NoMembers(clients, key);
    }
    hide KeyOf, KeysOf;
  }

  lemma KeysOneMore(clients: seq<R.Snapshot>, c: R.Snapshot)
    ensures KeysOf(clients + [c]) == KeysOf(clients) + {KeyOf(c)}
  {
    hide KeyOf;
    assert forall x :: x in clients + [c] <==> x in clients || x == c;
  }

  lemma {:induction false} NoMembers(clients: seq<R.Snapshot>, key: Key)
    requires key !in KeysOf(clients)
    ensures Members(clients, key) == []
  {
    hide KeyOf;
    if clients != [] {
      var n := |clients| - 1;
      assert clients[n] in clients;
      assert forall c :: c in clients[..n] ==> c in clients;
      NoMembers(clients[..n], key);
    }
  }

  method GroupRecipients(clients: seq<R.Snapshot>) returns (groups: map<Key, seq<R.Snapshot>>)
    ensures Grouped(clients, groups)
  {
    groups := map[];
    assert Grouped(clients[..0], groups);
    hide Grouped, KeyOf;
    for k := 0 to |clients|
      invariant Grouped(clients[..k], groups)
    {
      var c := clients[k];
      var key := KeyOf(c);
      GroupOneMore(clients[..k], groups, c);
      assert clients[..k] + [c] == clients[..k + 1];
      groups := groups[key := (if key in groups then groups[key] else []) + [c]];
    }
    assert clients[..|clients|] == clients;
  }

  // The worker.

  method SendFrame(f: EncodedFrame, recipients: seq<R.Snapshot>, counter: nat) returns (wires: seq<Wire>, next: nat)
    ensures wires == FanOut(f, counter, recipients)
    ensures next == After(counter, Sending(f, recipients))
  {
    wires, next := [], counter + 1;
    var packet := PacketOf(f, ToU32(counter));
    for k := 0 to |recipients|
      invariant wires == FanOut(f, counter, recipients[..k])
      invariant next == counter + 1 + Extras(f, recipients[..k])
    {
      var c := recipients[k];
      assert recipients[..k + 1][..k] == recipients[..k];
      PiecesAre(f, counter, c);
      var packets := SendTo(f, packet, counter, c);
      next := next + Max(|packets| - 1, 0);
      wires := wires + packets;
    }
    assert recipients[..|recipients|] == recipients;
  }

  method SendTo(f: EncodedFrame, packet: P.LegacyPacket, counter: nat, c: R.Snapshot) returns (wires: seq<Wire>)
    requires packet == PacketOf(f, ToU32(counter))
    ensures wires == WiresFor(f, counter, c)
  {
    hide EncodePacket, Fragments, FragCount, V2Flags;
    var flags := V2Flags(packet, c.modeChanged, c.firstPacket);
    var packets, _ := EncodePacketsByDataPlane(packet, c.plane, flags, f.codec, ToU32(counter));
    wires := [];
    for i := 0 to |packets|
      invariant |wires| == i
      invariant forall j :: 0 <= j < i ==> wires[j] == Wire(c, counter + j, f.codec, packets[j])
    {
      wires := wires + [Wire(c, counter + i, f.codec, packets[i])];
    }
  }

  function SendingsFor(frames: seq<EncodedFrame>, recipients: seq<R.Snapshot>): (s: seq<Sending>)
    ensures |s| == |frames| && forall k :: 0 <= k < |s| ==> s[k] == Sending(frames[k], recipients)
  {
    seq(|frames|, k requires 0 <= k < |frames| => Sending(frames[k], recipients))
  }

  /** The sendings of a job whose groups are visited in this order; encode gives each group's encoded frames. */
  function JobSendings(clients: seq<R.Snapshot>, encode: Key -> seq<EncodedFrame>, order: seq<Key>): seq<Sending> {
    if order == [] then []
    else
      var n := |order| - 1;
      JobSendings(clients, encode, order[..n]) + SendingsFor(encode(order[n]), Members(clients, order[n]))
  }

  lemma OneMoreSending(start: nat, before: seq<Sending>, x: Sending)
    ensures Counter(start, before + [x]) == After(Counter(start, before), x)
    ensures Trace(start, before + [x]) == Trace(start, before) + FanOut(x.frame, Counter(start, before), x.recipients)
  {
    assert (before + [x])[..|before|] == before;
    hide FanOut, After;
  }

  ghost predicate Concatenates(start: nat, a: seq<Sending>, b: seq<Sending>) {
    && Counter(start, a + b) == Counter(Counter(start, a), b)
    && Trace(start, a + b) == Trace(start, a) + Trace(Counter(start, a), b)
  }

  lemma ConcatGrows(start: nat, a: seq<Sending>, b: seq<Sending>, x: Sending)
    requires Concatenates(start, a, b)
    ensures Concatenates(start, a, b + [x])
  {
    hide Trace, Counter, FanOut, After;
    var counter := Counter(start, a);
    OneMoreSending(start, a + b, x);
    OneMoreSending(counter, b, x);
    assert (a + b) + [x] == a + (b + [x]);
    var more := FanOut(x.frame, Counter(counter, b), x.recipients);
    assert Trace(start, a + (b + [x])) == (Trace(start, a) + Trace(counter, b)) + more;
    assert Trace(start, a) + Trace(counter, b + [x]) == Trace(start, a) + (Trace(counter, b) + more);
  }

  /** Runs follow one another: the second goes on from the counter of the first. */
  lemma {:induction false} TraceConcat(start: nat, a: seq<Sending>, b: seq<Sending>)
    ensures Concatenates(start, a, b)
  {
    if b == [] {
      assert a + b == a;
      NothingSent(Counter(start, a));
      hide Trace, Counter;
    } else {
      var n := |b| - 1;
      assert b[..n] + [b[n]] == b;
      hide Concatenates;
      TraceConcat(start, a, b[..n]);
      ConcatGrows(start, a, b[..n], b[n]);
    }
  }

  method SendGroup(frames: seq<EncodedFrame>, recipients: seq<R.Snapshot>, counter: nat)
    returns (wires: seq<Wire>, next: nat)
    ensures wires == Trace(counter, SendingsFor(frames, recipients))
    ensures next == Counter(counter, SendingsFor(frames, recipients))
  {
    hide FanOut, After;
    wires, next := [], counter;
    ghost var all := SendingsFor(frames, recipients);
    for k := 0 to |frames|
      invariant wires == Trace(counter, all[..k])
      invariant next == Counter(counter, all[..k])
    {
      assert all[..k + 1][..k] == all[..k];
      var more;
      more, next := SendFrame(frames[k], recipients, next);
      wires := wires + more;
    }
    assert all[..|frames|] == all;
  }

  predicate NoRepeats(order: seq<Key>) {
    forall j, k :: 0 <= j < k < |order| ==> order[j] != order[k]
  }

  lemma JobIncreases(clients: seq<R.Snapshot>, encode: Key -> seq<EncodedFrame>, order: seq<Key>, counter: nat)
    requires DistinctIds(clients)
    ensures forall id :: Increasing(Trace(counter, JobSendings(clients, encode, order)), id)
  {
    hide Trace, DistinctIds, Increasing, JobSendings;
    var sendings := JobSendings(clients, encode, order);
    forall j | 0 <= j < |sendings| ensures DistinctIds(sendings[j].recipients) {
      JobIsSound(clients, encode, order, j);
    }
    forall id ensures Increasing(Trace(counter, sendings), id) {
      ClientNumbersIncrease(counter, sendings, id);
    }
  }

  lemma NoRepeatsGrows(order: seq<Key>, key: Key)
    requires NoRepeats(order) && key !in order
    ensures NoRepeats(order + [key])
  {
  }

  lemma OrderGrows(order: seq<Key>, key: Key)
    ensures forall other :: other in order + [key] <==> other in order || other == key
  {
  }

  lemma NothingSent(counter: nat)
    ensures Trace(counter, []) == [] && Counter(counter, []) == counter
  {
  }

  /** In a job every frame goes to distinct clients of one group, all of them clients of the job. */
  lemma {:induction false} JobIsSound(clients: seq<R.Snapshot>, encode: Key -> seq<EncodedFrame>, order: seq<Key>,
                                      j: nat)
    requires DistinctIds(clients) && j < |JobSendings(clients, encode, order)|
    ensures var s := JobSendings(clients, encode, order)[j];
            && DistinctIds(s.recipients)
            && exists key :: key in order && s.frame in encode(key) && s.recipients == Members(clients, key)
  {
    var n := |order| - 1;
    var before := JobSendings(clients, encode, order[..n]);
    var last := SendingsFor(encode(order[n]), Members(clients, order[n]));
    hide Members, DistinctIds, SendingsFor;
    if j < |before| {
      JobIsSound(clients, encode, order[..n], j);
      assert before[j] == JobSendings(clients, encode, order)[j];
    } else {
      MembersDistinct(clients, order[n]);
      assert last[j - |before|] == JobSendings(clients, encode, order)[j];
      assert order[n] in order;
    }
  }

  /** Whoever gets a frame is a gated client, the frame is one of its own encoder's, and its codec allows it. */
  lemma JobGatesCodecs(clients: seq<R.Snapshot>, encode: Key -> seq<EncodedFrame>, order: seq<Key>, forcePcm16: bool,
                       j: nat, c: R.Snapshot)
    requires DistinctIds(clients) && forall k :: 0 <= k < |clients| ==> Carried(clients[k])
    requires forall key, f :: key in order && f in encode(key) ==> Allowed(key.codec, forcePcm16, f.codec)
    requires j < |JobSendings(clients, encode, order)| && c in JobSendings(clients, encode, order)[j].recipients
    ensures Carried(c) && c in clients
    ensures JobSendings(clients, encode, order)[j].frame in encode(KeyOf(c))
    ensures Allowed(c.codec, forcePcm16, JobSendings(clients, encode, order)[j].frame.codec)
  {
    hide DistinctIds, Carried, Allowed, JobSendings, Members;
    JobIsSound(clients, encode, order, j);
    var s := JobSendings(clients, encode, order)[j];
    var key :| key in order && s.frame in encode(key) && s.recipients == Members(clients, key);
    MembersAre(clients, key, c);
  }
}

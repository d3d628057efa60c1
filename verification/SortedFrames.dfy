/** The sorted map of the jitter buffer: frames in comparator order, keyed by their wrapping
    sequence. Inside the window it is the map over unbounded numbers. */
module SortedFrames {
  import opened Words
  import opened SerialNumbers
  import opened JitterModel

  /** Position of the first frame that the comparator does not place before key. */
  function KeyRank(frames: seq<PcmFrame>, key: int32): (r: nat)
    ensures r <= |frames|
  {
    if frames == [] || CompareSeq(frames[0].sequence, key) >= 0 then 0 else 1 + KeyRank(frames[1..], key)
  }

  predicate ContainsKey(frames: seq<PcmFrame>, key: int32) {
    var r := KeyRank(frames, key);
    r < |frames| && CompareSeq(frames[r].sequence, key) == 0
  }

  function Put(frames: seq<PcmFrame>, f: PcmFrame): seq<PcmFrame> {
    var r := KeyRank(frames, f.sequence);
    frames[..r] + [f] + frames[r..]
  }

  function Remove(frames: seq<PcmFrame>, key: int32): Option<(PcmFrame, seq<PcmFrame>)> {
    var r := KeyRank(frames, key);
    if ContainsKey(frames, key) then Some((frames[r], frames[..r] + frames[r + 1..])) else None
  }

  /** The frames are those numbered by held, in the same order, each under its wrapped number. */
  predicate Tracks(frames: seq<PcmFrame>, held: seq<Numbered>) {
    && |frames| == |held|
    && forall i :: 0 <= i < |held| ==>
         frames[i] == held[i].frame && frames[i].sequence == ToInt32(held[i].num)
  }

  predicate Near(held: seq<Numbered>, num: int) {
    forall i :: 0 <= i < |held| ==> -TWO_31 < num - held[i].num < TWO_31
  }

  /** Inside the window the comparator finds the position that plain order finds. */
  lemma {:induction false} KeyRankRefines(frames: seq<PcmFrame>, held: seq<Numbered>, num: int)
    requires Tracks(frames, held) && Near(held, num)
    ensures KeyRank(frames, ToInt32(num)) == Rank(held, num)
    ensures ContainsKey(frames, ToInt32(num)) <==> Holds(held, num)
  {
    if held != [] {
      WindowRefinesOrder(held[0].num, num);
      if held[0].num < num {
        KeyRankRefines(frames[1..], held[1..], num);
      }
    }
    var r := Rank(held, num);
    if r < |held| {
      WindowRefinesOrder(held[r].num, num);
    }
  }

  lemma PutRefines(frames: seq<PcmFrame>, held: seq<Numbered>, x: Numbered)
    requires Tracks(frames, held) && Near(held, x.num) && x.frame.sequence == ToInt32(x.num)
    ensures Tracks(Put(frames, x.frame), Insert(held, x))
  {
    KeyRankRefines(frames, held, x.num);
  }

  /** Looking for a number that none of the held ones precedes finds the first frame or nothing. */
  lemma RemoveRefines(frames: seq<PcmFrame>, held: seq<Numbered>, num: int)
    requires Tracks(frames, held) && Near(held, num)
    requires forall i :: 0 <= i < |held| ==> num <= held[i].num
    ensures Remove(frames, ToInt32(num)) ==
              if held != [] && held[0].num == num then Some((frames[0], frames[1..])) else None
  {
    KeyRankRefines(frames, held, num);
    if held != [] {
      assert Rank(held, num) == 0;
      assert frames[..0] + frames[1..] == frames[1..];
    }
  }
}

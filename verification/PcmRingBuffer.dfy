/** The ring as one thread at a time uses it: an array of samples and two 64-bit positions, with the
    two-chunk copies of push and pull. */
module PcmRingBuffer {
  import opened Words
  import opened PcmRing

  class PcmRingBuffer {
    const buffer: array<int>
    var writePos: u64
    var readPos: u64

    /** Every sample pushed so far; those from taken on are stored. */
    ghost var pushed: seq<int>
    ghost var taken: nat

    ghost predicate Valid()
      reads this, buffer
    {
      && Counted()
      && Holds(buffer[..], pushed, taken)
    }

    ghost predicate Counted()
      reads this
    {
      && buffer.Length == SLOTS
      && |pushed| % CHANNELS == 0 && taken % CHANNELS == 0
      && taken <= |pushed| <= taken + SLOTS
      && writePos == ToU64(|pushed| / CHANNELS) && readPos == ToU64(taken / CHANNELS)
    }

    /** The stored samples, oldest first. */
    ghost function Contents(): (c: seq<int>)
      reads this, buffer
      requires Valid()
    {
      pushed[taken..]
    }

    constructor ()
      ensures Valid() && Contents() == [] && fresh(buffer)
    {
      buffer := new int[SLOTS];
      writePos, readPos := 0, 0;
      pushed, taken := [], 0;
    }

    method AvailableFrames() returns (n: int)
      requires Valid()
      ensures CHANNELS * n == |Contents()|
    {
      DistanceIsFill(|pushed| / CHANNELS, taken / CHANNELS);
      n := Distance64(writePos, readPos);
    }

    /** Copies a chunk to the slots from slot on. */
    method CopyIn(chunk: seq<int>, slot: nat)
      requires slot + |chunk| <= buffer.Length
      modifies buffer
      ensures buffer[..] == Overwritten(old(buffer[..]), chunk, slot)
    {
      for i := 0 to |chunk|
        invariant forall k :: 0 <= k < buffer.Length ==>
                    buffer[k] == if slot <= k < slot + i then chunk[k - slot] else old(buffer[k])
      {
        buffer[slot + i] := chunk[i];
      }
    }

    /** Copies a block in two chunks: n samples from slot at on, the rest from the start. */
    method CopyBlock(data: seq<int>, at: nat, n: nat)
      requires n <= |data| && at + n <= buffer.Length && |data| - n <= buffer.Length
      modifies buffer
      ensures buffer[..] == TwoChunks(old(buffer[..]), data, at, n)
    {
      hide Overwritten;
      CopyIn(data[..n], at);
      if n < |data| {
        CopyIn(data[n..], 0);
      }
    }

    method Push(data: seq<int>, frames: int) returns (ok: bool)
      requires Valid() && (frames > 0 ==> |data| == CHANNELS * frames)
      modifies this, buffer
      ensures Valid()
      ensures ok <==> 0 < frames && |old(Contents())| + CHANNELS * frames <= SLOTS
      ensures Contents() == old(Contents()) + (if ok then data else [])
    {
      if frames <= 0 || frames > CAPACITY_FRAMES {
        return false;
      }
      DistanceIsFill(|pushed| / CHANNELS, taken / CHANNELS);
      if CAPACITY_FRAMES - Distance64(writePos, readPos) < frames {
        return false;
      }
      Store(data, frames);
      ok := true;
    }

    /** Copies a block that fits behind the stored samples, in up to two chunks, and publishes it. */
    method Store(data: seq<int>, frames: nat)
      requires Valid() && |data| == CHANNELS * frames && |pushed| - taken + |data| <= SLOTS
      modifies this`writePos, this`pushed, buffer
      ensures Valid() && pushed == old(pushed) + data
    {
      ghost var laps := StartOf(|pushed|);
      Appended(|pushed|, frames);
      hide ToU64, Holds;
      var start := writePos % CAPACITY_FRAMES;
      var first := Min(frames, CAPACITY_FRAMES - start);
      StoredBlock(buffer[..], pushed, taken, data, start, laps, CHANNELS * first);
      hide TwoChunks;
      CopyBlock(data, start * CHANNELS, first * CHANNELS);
      writePos := ToU64(writePos + frames);
      pushed := pushed + data;
    }

    method Pull(frames: int) returns (out: seq<int>)
      requires Valid()
      modifies this`readPos, this`taken
      ensures Valid()
      ensures |out| == Max(0, Min(CHANNELS * frames, |old(Contents())|))
      ensures out + Contents() == old(Contents())
    {
      if frames <= 0 {
        return [];
      }
      DistanceIsFill(|pushed| / CHANNELS, taken / CHANNELS);
      var available := Min(Distance64(writePos, readPos), frames);
      if available <= 0 {
        return [];
      }
      out := Load(available);
    }

    /** Copies the oldest frames out, in up to two chunks, and releases them. */
    method Load(frames: nat) returns (out: seq<int>)
      requires Valid() && taken + CHANNELS * frames <= |pushed|
      modifies this`readPos, this`taken
      ensures Valid() && taken == old(taken) + CHANNELS * frames
      ensures out == pushed[old(taken)..taken]
    {
      ghost var laps := StartOf(taken);
      Appended(taken, frames);
      hide ToU64, Holds;
      var start := readPos % CAPACITY_FRAMES;
      var first := Min(frames, CAPACITY_FRAMES - start);
      LoadedBlock(buffer[..], pushed, taken, CHANNELS * frames, start, laps, CHANNELS * first);
      ReleasedHolds(buffer[..], pushed, taken, taken + CHANNELS * frames);
      out := buffer[start * CHANNELS..(start + first) * CHANNELS];
      if frames > first {
        out := out + buffer[..(frames - first) * CHANNELS];
      }
      readPos := ToU64(readPos + frames);
      taken := taken + CHANNELS * frames;
    }
  }

  lemma StartOf(n: nat) returns (laps: nat)
    requires n % CHANNELS == 0
    ensures n == SLOTS * laps + CHANNELS * (ToU64(n / CHANNELS) % CAPACITY_FRAMES)
  {
    WrapKeepsSlot(n / CHANNELS);
    laps := n / CHANNELS / CAPACITY_FRAMES;
  }

  lemma Appended(n: nat, frames: nat)
    requires n % CHANNELS == 0
    ensures (n + CHANNELS * frames) % CHANNELS == 0
    ensures (n + CHANNELS * frames) / CHANNELS == n / CHANNELS + frames
    ensures ToU64(ToU64(n / CHANNELS) + frames) == ToU64(n / CHANNELS + frames)
  {
  }

  /** The samples from taken on stand in the slots of their indices. */
  ghost predicate Holds(buffer: seq<int>, pushed: seq<int>, taken: nat) {
    |buffer| == SLOTS && forall i :: taken <= i < |pushed| ==> buffer[i % SLOTS] == pushed[i]
  }

  ghost function Overwritten(buffer: seq<int>, chunk: seq<int>, slot: nat): (r: seq<int>)
    requires slot + |chunk| <= |buffer|
    ensures |r| == |buffer|
  {
    buffer[..slot] + chunk + buffer[slot + |chunk|..]
  }

  lemma OverwrittenAt(buffer: seq<int>, chunk: seq<int>, slot: nat, j: nat)
    requires slot + |chunk| <= |buffer| && j < |buffer|
    ensures Overwritten(buffer, chunk, slot)[j] == if slot <= j < slot + |chunk| then chunk[j - slot] else buffer[j]
  {
  }

  /** The buffer after the first n samples went to the end part and the others to the start. */
  ghost function TwoChunks(buffer: seq<int>, data: seq<int>, at: nat, n: nat): seq<int>
    requires n <= |data| && at + n <= |buffer| && |data| - n <= |buffer|
  {
    var one := Overwritten(buffer, data[..n], at);
    if n < |data| then Overwritten(one, data[n..], 0) else one
  }

  lemma TwoChunksAt(buffer: seq<int>, data: seq<int>, at: nat, n: nat, j: nat)
    requires n <= |data| && at + n <= |buffer| && |data| - n <= at && j < |buffer|
    ensures TwoChunks(buffer, data, at, n)[j] ==
              if at <= j < at + n then data[j - at] else if j < |data| - n then data[n + j] else buffer[j]
  {
    hide Overwritten;
    OverwrittenAt(buffer, data[..n], at, j);
    if n < |data| {
      OverwrittenAt(Overwritten(buffer, data[..n], at), data[n..], 0, j);
    }
  }

  /** Two chunks, up to the end of the buffer and from its start, put every sample of the block in the
      slot of its index and leave the stored ones alone. */
  lemma StoredBlock(buffer: seq<int>, pushed: seq<int>, taken: nat, data: seq<int>, start: nat, laps: nat, n: nat)
    requires Holds(buffer, pushed, taken)
    requires taken <= |pushed| && |pushed| - taken + |data| <= SLOTS
    requires |pushed| == SLOTS * laps + CHANNELS * start && CHANNELS * start < SLOTS
    requires n == Min(|data|, SLOTS - CHANNELS * start)
    ensures Holds(TwoChunks(buffer, data, CHANNELS * start, n), pushed + data, taken)
  {
    var two := TwoChunks(buffer, data, CHANNELS * start, n);
    hide TwoChunks;
    var all := pushed + data;
    forall i | taken <= i < |all|
      ensures two[i % SLOTS] == all[i]
    {
      IndexSlot(|pushed|, start, laps, i);
      TwoChunksAt(buffer, data, CHANNELS * start, n, i % SLOTS);
    }
  }

  lemma LoadedBlock(buffer: seq<int>, pushed: seq<int>, taken: nat, count: nat, start: nat, laps: nat, n: nat)
    requires Holds(buffer, pushed, taken)
    requires taken + count <= |pushed| <= taken + SLOTS
    requires taken == SLOTS * laps + CHANNELS * start && CHANNELS * start < SLOTS
    requires n == Min(count, SLOTS - CHANNELS * start)
    ensures buffer[CHANNELS * start..CHANNELS * start + n] + buffer[..count - n] == pushed[taken..taken + count]
  {
    var out := buffer[CHANNELS * start..CHANNELS * start + n] + buffer[..count - n];
    forall k | 0 <= k < count
      ensures out[k] == pushed[taken + k]
    {
      IndexSlot(taken, start, laps, taken + k);
    }
  }

  lemma ReleasedHolds(buffer: seq<int>, pushed: seq<int>, taken: nat, now: nat)
    requires Holds(buffer, pushed, taken) && taken <= now
    ensures Holds(buffer, pushed, now)
  {
  }

  /** Where index i stands, seen from an even index base that stands in slot 2 * start. */
  lemma IndexSlot(base: nat, start: nat, laps: nat, i: nat)
    requires base == SLOTS * laps + CHANNELS * start && CHANNELS * start < SLOTS
    requires base - SLOTS <= i < base + SLOTS
    ensures var at := CHANNELS * start + (i - base);
            i % SLOTS == if at < 0 then at + SLOTS else if at < SLOTS then at else at - SLOTS
  {
    var at := CHANNELS * start + (i - base);
    if at < 0 {
      RemainderIs(i, laps - 1, at + SLOTS);
    } else if at < SLOTS {
      RemainderIs(i, laps, at);
    } else {
      RemainderIs(i, laps + 1, at - SLOTS);
    }
  }
}

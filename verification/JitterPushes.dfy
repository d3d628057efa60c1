/** What pushes, trims and drops do to the buffer's fields, with limits counted in milliseconds. */
module JitterPushes {
  import opened Words
  import opened JitterModel
  import opened JitterInvariants
  import opened JitterBounds

  /** n frames of d milliseconds are the fewest that fill this time. */
  predicate Fills(n: int, d: pos, ms: int) {
    (n - 1) * d < ms <= n * d
  }

  lemma FillsExactly(n: int, d: pos, ms: int)
    ensures n == CeilDiv(ms, d) <==> Fills(n, d, ms)
  {
    CeilDivIsCeiling(ms, d);
    var q := CeilDiv(ms, d);
    hide CeilDiv;
    if Fills(n, d, ms) {
      if n < q {
        Monotone(n, q - 1, d);
      } else if n > q {
        Monotone(q, n - 1, d);
      }
    }
  }

  lemma Monotone(a: int, b: int, d: pos)
    requires a <= b
    ensures a * d <= b * d
  {
  }

  /** The size limit in frames: those that fill the maximal time, but at least 8 and at most 2000. */
  predicate IsLimit(most: int, b: Buffer) {
    && 8 <= most <= 2000
    && (most < 2000 ==> most * b.durationMs >= b.config.maxMs)
    && (most > 8 ==> (most - 1) * b.durationMs < b.config.maxMs)
  }

  /** The drop threshold in frames: those that fill the drop time, but at least one. */
  predicate IsThreshold(tail: int, b: Buffer) {
    && tail >= 1
    && tail * b.durationMs >= b.config.dropMs
    && (tail > 1 ==> (tail - 1) * b.durationMs < b.config.dropMs)
  }

  lemma LimitExactly(most: int, b: Buffer)
    ensures IsLimit(most, b) <==> most == MaxFrames(b.config.maxMs, b.durationMs)
  {
    var n, d, ms := CeilDiv(b.config.maxMs, b.durationMs), b.durationMs, b.config.maxMs;
    FillsExactly(n, d, ms);
    hide CeilDiv;
    BeyondFills(n, d, ms, most);
    BeyondFills(n, d, ms, most - 1);
  }

  lemma ThresholdExactly(tail: int, b: Buffer)
    ensures IsThreshold(tail, b) <==> tail == ThresholdFrames(b.config.dropMs, b.durationMs)
  {
    var n, d, ms := CeilDiv(b.config.dropMs, b.durationMs), b.durationMs, b.config.dropMs;
    FillsExactly(n, d, ms);
    hide CeilDiv;
    BeyondFills(n, d, ms, tail);
    BeyondFills(n, d, ms, tail - 1);
  }

  lemma BeyondFills(n: int, d: pos, ms: int, k: int)
    requires Fills(n, d, ms)
    ensures k * d >= ms <==> k >= n
  {
    if k >= n {
      Monotone(n, k, d);
    } else {
      Monotone(k, n - 1, d);
    }
  }

  // Trimming.

  /** The oldest frames are gone, down to this many, and each is counted. */
  predicate Keeps(b: Buffer, c: Buffer, keep: nat)
    requires keep <= |b.held|
  {
    var gone := |b.held| - keep;
    && c.held == b.held[gone..]
    && c.log == b.log.(evicted := b.log.evicted + b.held[..gone])
    && c.stats == b.stats.(dropped := b.stats.dropped + gone, bufferedFrames := keep)
    && c.config == b.config && c.durationMs == b.durationMs && c.started == b.started
  }

  /** The buffer without its oldest frames. */
  function Without(b: Buffer, gone: nat): Buffer
    requires gone <= |b.held|
  {
    b.(held := b.held[gone..], stats := b.stats.(dropped := b.stats.dropped + gone),
       log := b.log.(evicted := b.log.evicted + b.held[..gone]))
  }

  lemma EvictIs(b: Buffer, n: nat)
    ensures EvictTo(b, n) == Without(b, if |b.held| > n then |b.held| - n else 0)
  {
  }

  lemma WithoutTwice(b: Buffer, m: nat, n: nat)
    requires m + n <= |b.held|
    ensures Without(Without(b, m), n) == Without(b, m + n)
  {
    TwoCuts(b.held, m, n, b.log.evicted);
  }

  /** The expected number, moved up to the oldest frame when it is behind it or unset. */
  function Ahead(expected: Option<int>, oldest: int): Option<int> {
    if expected.None? || expected.value < oldest then Some(oldest) else expected
  }

  lemma TimedOut(b: Buffer, now: int, tail: nat, w: Buffer)
    requires tail == ThresholdFrames(b.config.dropMs, b.durationMs) && tail >= 1
    requires |b.held| > tail && b.overflowSinceMs != 0 && now - b.overflowSinceMs >= 250
    requires w == Without(b, |b.held| - tail)
    ensures |w.held| == tail
    ensures TrimLatency(b, now) == w.(overflowSinceMs := 0, expected := Ahead(b.expected, w.held[0].num))
  {
    EvictIs(b, tail);
    hide EvictTo, ThresholdFrames;
  }

  lemma NotTimedOut(b: Buffer, now: int, tail: nat)
    requires tail == ThresholdFrames(b.config.dropMs, b.durationMs)
    requires |b.held| <= tail || b.overflowSinceMs == 0 || now - b.overflowSinceMs < 250
    ensures TrimLatency(b, now) == b.(overflowSinceMs := if |b.held| <= tail then 0
                                                         else if b.overflowSinceMs == 0 then now else b.overflowSinceMs)
  {
    hide EvictTo, ThresholdFrames;
  }

  lemma CutExactly(b: Buffer, cut: nat)
    requires cut == Min(|b.held|, MaxFrames(b.config.maxMs, b.durationMs))
    ensures TrimSize(b) == Without(b, |b.held| - cut)
  {
    EvictIs(b, MaxFrames(b.config.maxMs, b.durationMs));
    hide MaxFrames, EvictTo, Without;
  }

  function Cut(b: Buffer, keep: nat, overflowSinceMs: int, expected: Option<int>): Buffer
    requires keep <= |b.held|
  {
    Counted(Without(b, |b.held| - keep).(overflowSinceMs := overflowSinceMs, expected := expected))
  }

  lemma DueTrim(b: Buffer, now: int, tail: nat, cut: nat)
    requires tail == ThresholdFrames(b.config.dropMs, b.durationMs)
    requires cut == Min(|b.held|, MaxFrames(b.config.maxMs, b.durationMs))
    requires |b.held| >= cut > tail >= 1 && b.overflowSinceMs != 0 && now - b.overflowSinceMs >= 250
    ensures Trim(b, now) == Cut(b, tail, 0, Ahead(b.expected, b.held[|b.held| - tail].num))
  {
    hide *;
    var m, n := |b.held| - cut, cut - tail;
    CutExactly(b, cut);
    SecondCut(b, m, n);
    var a, w := Without(b, m), Without(b, m + n);
    TimedOut(a, now, tail, w);
    TrimsTo(b, now, a, w.(overflowSinceMs := 0, expected := Ahead(b.expected, w.held[0].num)));
    CutsTo(b, tail, 0, Ahead(b.expected, w.held[0].num), w);
  }

  lemma CutsTo(b: Buffer, keep: nat, overflowSinceMs: int, expected: Option<int>, w: Buffer)
    requires keep <= |b.held| && w == Without(b, |b.held| - keep)
    ensures Cut(b, keep, overflowSinceMs, expected)
         == Counted(w.(overflowSinceMs := overflowSinceMs, expected := expected))
  {
    hide Without, Counted;
  }

  lemma TrimsTo(b: Buffer, now: int, a: Buffer, c: Buffer)
    requires TrimSize(b) == a && TrimLatency(a, now) == c
    ensures Trim(b, now) == Counted(c)
  {
    hide TrimSize, TrimLatency;
  }

  lemma SecondCut(b: Buffer, m: nat, n: nat)
    requires m + n < |b.held|
    ensures var a := Without(b, m);
            && |a.held| == |b.held| - m && Without(a, n) == Without(b, m + n)
            && a.expected == b.expected && a.overflowSinceMs == b.overflowSinceMs
            && a.config == b.config && a.durationMs == b.durationMs
            && |Without(b, m + n).held| > 0 && Without(b, m + n).held[0] == b.held[m + n]
  {
    WithoutTwice(b, m, n);
  }

  lemma EarlyTrim(b: Buffer, now: int, tail: nat, cut: nat)
    requires tail == ThresholdFrames(b.config.dropMs, b.durationMs)
    requires cut == Min(|b.held|, MaxFrames(b.config.maxMs, b.durationMs))
    requires cut <= tail || b.overflowSinceMs == 0 || now - b.overflowSinceMs < 250
    ensures Trim(b, now) ==
              Cut(b, cut, if cut <= tail then 0 else if b.overflowSinceMs == 0 then now else b.overflowSinceMs,
                  b.expected)
  {
    CutExactly(b, cut);
    NotTimedOut(Without(b, |b.held| - cut), now, tail);
    hide MaxFrames, ThresholdFrames, TrimSize, TrimLatency, Counted;
  }

  lemma CutIs(b: Buffer, keep: nat, overflowSinceMs: int, expected: Option<int>)
    requires keep <= |b.held|
    ensures var c := Cut(b, keep, overflowSinceMs, expected);
            Keeps(b, c, keep) && c.overflowSinceMs == overflowSinceMs && c.expected == expected
  {
  }

  /**
   * A trim cuts to the size limit at once, and to the drop threshold when the buffer has been above it for 250 ms;
   * only then does the expected number catch up. The timer runs while the buffer is above the threshold.
   */
  lemma TrimExactly(b: Buffer, now: int, most: nat, tail: nat, cut: nat, due: bool)
    requires IsLimit(most, b) && IsThreshold(tail, b)
    requires cut == if |b.held| > most then most else |b.held|
    requires due <==> cut > tail && b.overflowSinceMs != 0 && now - b.overflowSinceMs >= 250
    ensures var c := Trim(b, now);
            && Keeps(b, c, if due then tail else cut)
            && c.overflowSinceMs == (if cut <= tail || due then 0
                                     else if b.overflowSinceMs == 0 then now else b.overflowSinceMs)
            && c.expected == if due then Ahead(b.expected, b.held[|b.held| - tail].num) else b.expected
  {
    LimitExactly(most, b);
    ThresholdExactly(tail, b);
    assert tail >= 1;
    hide MaxFrames, ThresholdFrames, IsLimit, IsThreshold, Trim, Ahead, Cut, Keeps;
    if due {
      DueTrim(b, now, tail, cut);
      CutIs(b, tail, 0, Ahead(b.expected, b.held[|b.held| - tail].num));
    } else {
      EarlyTrim(b, now, tail, cut);
      CutIs(b, cut, if cut <= tail then 0 else if b.overflowSinceMs == 0 then now else b.overflowSinceMs, b.expected);
    }
  }

  lemma TwoCuts(held: seq<Numbered>, m: nat, n: nat, evicted: seq<Numbered>)
    requires m + n <= |held|
    ensures held[m..][n..] == held[m + n..]
    ensures (evicted + held[..m]) + held[m..][..n] == evicted + held[..m + n]
  {
    assert held[..m] + held[m..][..n] == held[..m + n];
    assert (evicted + held[..m]) + held[m..][..n] == evicted + (held[..m] + held[m..][..n]);
  }

  // Pushing.

  predicate Among(held: seq<Numbered>, num: int) {
    exists i :: 0 <= i < |held| && held[i].num == num
  }

  lemma AmongExactly(held: seq<Numbered>, num: int)
    requires Ascending(held)
    ensures Holds(held, num) <==> Among(held, num)
  {
    RankSplits(held, num);
  }

  /**
   * A push takes over the packet's duration, 10 ms when it has none. A number held already counts as dropped, one
   * before the expected number as late; nothing else then changes.
   */
  lemma RejectedPushExactly(b: Buffer, x: Numbered, packetMs: int, now: int)
    requires Ascending(b.held)
    requires Among(b.held, x.num) || (b.expected.Some? && x.num < b.expected.value)
    ensures var c, dup := Push(b, x, packetMs, now), Among(b.held, x.num);
            c == b.(durationMs := if packetMs > 0 then packetMs else 10,
                    stats := b.stats.(dropped := b.stats.dropped + if dup then 1 else 0,
                                      late := b.stats.late + if dup then 0 else 1),
                    log := b.log.(pushes := b.log.pushes + 1,
                                  duplicates := b.log.duplicates + if dup then 1 else 0,
                                  late := b.log.late + if dup then 0 else 1))
  {
    AmongExactly(b.held, x.num);
    hide Holds, Among;
  }

  /** Any other push puts the frame at its place and trims; before the trim nothing else has changed. */
  lemma AcceptedPushExactly(b: Buffer, x: Numbered, packetMs: int, now: int, before: nat)
    requires Ascending(b.held) && before <= |b.held|
    requires forall i :: 0 <= i < |b.held| ==> if i < before then b.held[i].num < x.num else b.held[i].num > x.num
    requires b.expected.Some? ==> x.num >= b.expected.value
    ensures Push(b, x, packetMs, now) ==
              Trim(b.(durationMs := if packetMs > 0 then packetMs else 10,
                      held := b.held[..before] + [x] + b.held[before..],
                      log := b.log.(pushes := b.log.pushes + 1, accepted := b.log.accepted + [x])), now)
  {
    RankIs(b.held, x.num, before);
    InsertedIs(b, x, EffectiveDuration(packetMs), before);
    hide Trim, Rank, Holds, Push, Inserted, Insert, Ascending;
    PushTrims(b, x, packetMs, now);
  }

  lemma InsertedIs(b: Buffer, x: Numbered, duration: pos, before: nat)
    requires before == Rank(b.held, x.num)
    ensures Inserted(b, x, duration)
         == b.(durationMs := duration, held := b.held[..before] + [x] + b.held[before..],
               log := b.log.(pushes := b.log.pushes + 1, accepted := b.log.accepted + [x]))
  {
    hide Rank;
  }

  lemma RankIs(held: seq<Numbered>, num: int, before: nat)
    requires Ascending(held) && before <= |held|
    requires forall i :: 0 <= i < |held| ==> if i < before then held[i].num < num else held[i].num > num
    ensures Rank(held, num) == before && !Holds(held, num)
  {
    RankSplits(held, num);
    var r := Rank(held, num);
    hide Rank;
    assert r < |held| ==> (r < before <==> held[r].num < num);
    assert before < |held| ==> held[before].num > num;
  }

  // Dropping and reconfiguring.

  /**
   * Dropping the oldest milliseconds takes the fewest frames that make them up, at least one and at most all. What
   * is left sets the expected number when playout had passed beyond; with nothing left playout ends.
   */
  lemma DropExactly(b: Buffer, ms: int, n: int, gone: nat)
    requires ms > 0 && b.held != [] && Fills(n, b.durationMs, ms)
    requires gone == if n > |b.held| then |b.held| else n
    ensures var (c, dropped) := DropOldest(b, ms);
            && dropped == gone >= 1
            && c.held == b.held[gone..] && c.stats.dropped == b.stats.dropped + gone
            && c.stats.bufferedFrames == |b.held| - gone
            && (b.expected.None? ==> c.expected == None && c.started == b.started)
            && (b.expected.Some? && gone == |b.held| ==> c.expected == None && !c.started)
            && (b.expected.Some? && gone < |b.held| ==>
                  && c.started == b.started
                  && c.expected == Some(if b.expected.value < c.held[0].num then c.held[0].num else b.expected.value))
  {
    FillsExactly(n, b.durationMs, ms);
    BeyondFills(n, b.durationMs, ms, 0);
    hide CeilDiv, Fills;
  }

  lemma NothingToDrop(b: Buffer, ms: int)
    requires ms <= 0 || b.held == []
    ensures DropOldest(b, ms) == (b, 0)
  {
  }

  /** The start-up time is at least 1 ms and the two limits are at least the start-up time; then the buffer is
      trimmed. */
  lemma ReconfigureExactly(b: Buffer, startMs: int, maxMs: int, dropMs: int, now: int, start: int)
    requires start == if startMs < 1 then 1 else startMs
    ensures Reconfigure(b, startMs, maxMs, dropMs, now) ==
              Trim(b.(config := Config(startMs := start, maxMs := if maxMs < start then start else maxMs,
                                       dropMs := if dropMs < start then start else dropMs)), now)
  {
    hide Trim;
  }

  /** A clear forgets everything but the configuration. */
  lemma ClearExactly(b: Buffer)
    ensures var c := Clear(b);
            && c.config == b.config && c.held == [] && !c.started && c.expected == None && c.durationMs == 10
            && c.overflowSinceMs == 0 && c.stats == Stats(0, 0, 0, 0, 0)
            && c.log.pushes == 0 && c.log.accepted == [] && c.log.delivered == [] && c.log.evicted == []
  {
  }
}

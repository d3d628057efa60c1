/** Wrapping 32-bit sequence numbers: compareSeq, isOlder and nextSeq, and what they mean
    for the unbounded numbers that the wrapped ones stand for. */
module SerialNumbers {
  import opened Words

  /** Distance from b up to a, modulo 2^32. */
  function Distance(a: int32, b: int32): u32 {
    (a - b) % TWO_32
  }

  function CompareSeq(a: int32, b: int32): int {
    if a == b then 0
    else if Distance(a, b) < TWO_31 then 1
    else -1
  }

  predicate IsOlder(a: int32, b: int32) {
    Distance(a, b) > TWO_31
  }

  function NextSeq(s: int32): int32 {
    ToInt32((s + 1) % TWO_32)
  }

  function Sign(n: int): int {
    if n < 0 then -1 else if n == 0 then 0 else 1
  }

  lemma DistanceOfWrapped(a: int, b: int)
    ensures Distance(ToInt32(a), ToInt32(b)) == (a - b) % TWO_32
  {
    var k := a / TWO_32 - b / TWO_32;
    var x, y := ToInt32(a), ToInt32(b);
    assert exists j :: x - y == a - b + j * TWO_32 by {
      var ja := (x - a) / TWO_32;
      var jb := (y - b) / TWO_32;
      assert x == a + ja * TWO_32;
      assert y == b + jb * TWO_32;
      assert x - y == a - b + (ja - jb) * TWO_32;
    }
  }

  /** Inside a window of half the number space the comparator is the plain order. */
  lemma WindowRefinesOrder(a: int, b: int)
    requires -TWO_31 < a - b < TWO_31
    ensures CompareSeq(ToInt32(a), ToInt32(b)) == Sign(a - b)
    ensures IsOlder(ToInt32(a), ToInt32(b)) <==> a < b
    ensures ToInt32(a) == ToInt32(b) <==> a == b
  {
    DistanceOfWrapped(a, b);
  }

  /** Within one turn of the counter, the exact distances at which each test agrees with the plain
      order: compareSeq is wrong from +2^31 up, isOlder is wrong from -2^31 down, so the two tests
      disagree with each other at exactly half a turn. */
  lemma AgreementIsExactly(a: int, b: int)
    requires -TWO_32 < a - b < TWO_32
    ensures CompareSeq(ToInt32(a), ToInt32(b)) == Sign(a - b) <==> -TWO_31 <= a - b < TWO_31
    ensures (IsOlder(ToInt32(a), ToInt32(b)) <==> a < b) <==> -TWO_31 < a - b <= TWO_31
  {
    DistanceOfWrapped(a, b);
  }

  lemma NextIsSuccessor(n: int)
    ensures NextSeq(ToInt32(n)) == ToInt32(n + 1)
  {
  }

  /** Beyond the window the comparator is no order at all: three numbers, each before the next,
      come back to the first. A sorted map keyed by it therefore needs the window. */
  lemma ComparatorCycles()
    ensures exists a: int32, b: int32, c: int32 ::
              CompareSeq(a, b) < 0 && CompareSeq(b, c) < 0 && CompareSeq(c, a) < 0
  {
    var a, b, c := ToInt32(0), ToInt32(0x6000_0000), ToInt32(0xC000_0000);
    assert CompareSeq(a, b) < 0 && CompareSeq(b, c) < 0 && CompareSeq(c, a) < 0;
  }
}

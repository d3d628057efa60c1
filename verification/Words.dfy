/** Fixed-width machine integers, written as unbounded integers with explicit wrap-around. */
module Words {
  const TWO_8 := 0x100
  const TWO_16 := 0x1_0000
  const TWO_31 := 0x8000_0000
  const TWO_32 := 0x1_0000_0000
  const TWO_63 := 0x8000_0000_0000_0000
  const TWO_64 := 0x1_0000_0000_0000_0000

  type byte = b: int | 0 <= b < 0x100
  type u16 = n: int | 0 <= n < 0x1_0000
  type u32 = n: int | 0 <= n < 0x1_0000_0000
  type u64 = n: int | 0 <= n < 0x1_0000_0000_0000_0000
  type int32 = n: int | -0x8000_0000 <= n < 0x8000_0000

  datatype Option<+T> = None | Some(value: T)

  function ToU32(n: int): u32 {
    n % TWO_32
  }

  /** Two's complement reading of the low 32 bits. */
  function ToInt32(n: int): int32 {
    var low := n % TWO_32;
    if low < TWO_31 then low else low - TWO_32
  }

  function ToInt64(n: int): int {
    var low := n % TWO_64;
    if low < TWO_63 then low else low - TWO_64
  }

  /** Ceiling of a / d, exact for every numerator. */
  function CeilDiv(a: int, d: int): int
    requires d > 0
  {
    -((-a) / d)
  }

  function Max(a: int, b: int): int {
    if a < b then b else a
  }

  function Min(a: int, b: int): int {
    if a < b then a else b
  }

  function Clamp(n: int, low: int, high: int): int
    requires low <= high
  {
    if n < low then low else if n > high then high else n
  }

  lemma CeilDivIsCeiling(a: int, d: int)
    requires d > 0
    ensures (CeilDiv(a, d) - 1) * d < a <= CeilDiv(a, d) * d
  {
    var q := (-a) / d;
    assert -a == d * q + (-a) % d;
    assert CeilDiv(a, d) * d == -(q * d);
    assert (CeilDiv(a, d) - 1) * d == -(q * d) - d;
  }

  lemma CeilDivMonotone(a: int, b: int, d: int)
    requires d > 0 && a <= b
    ensures CeilDiv(a, d) <= CeilDiv(b, d)
  {
    CeilDivIsCeiling(a, d);
    CeilDivIsCeiling(b, d);
  }

  lemma MulAtLeast(k: int, r: int)
    requires k >= 1 && r > 0
    ensures k * r >= r
  {
  }

  /** A quotient and a remainder are determined by n = q*r + rest with 0 <= rest < r. */
  lemma DivisionIs(n: int, r: int, q: int, rest: int)
    requires r > 0 && n == q * r + rest && 0 <= rest < r
    ensures n / r == q && n % r == rest
  {
    var k, other := n / r, n % r;
    assert n == k * r + other && 0 <= other < r;
    assert (k - q) * r == rest - other;
    if k - q >= 1 {
      MulAtLeast(k - q, r);
    }
    if q - k >= 1 {
      MulAtLeast(q - k, r);
    }
  }
}

/** Small facts about real numbers that several models need. */
module Reals {
  function MaxReal(a: real, b: real): real {
    if a < b then b else a
  }

  function Magnitude(x: real): real {
    if x < 0.0 then -x else x
  }

  lemma NonNegative(a: real, b: real)
    requires a >= 0.0 && b >= 0.0
    ensures a * b >= 0.0
  {
  }
}

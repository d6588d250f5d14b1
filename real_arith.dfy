/** Small facts about real arithmetic used by several modules. */
module RealArith {

  /** Python's abs on a float. */
  function Abs(a: real): (r: real)
    ensures r >= 0.0 && (r == a || r == -a)
  {
    if a < 0.0 then -a else a
  }

  /** A fraction s in [0, 1] of a non-negative a lies between 0 and a. */
  lemma ScaledWithin(a: real, s: real)
    requires 0.0 <= a && 0.0 <= s <= 1.0
    ensures 0.0 <= s * a <= a && 0.0 <= a * s <= a
  {
  }
}

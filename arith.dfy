/** Two facts about multiplication by a positive factor, kept apart so that the proofs using them stay linear. */
module Arith {
  lemma MulMonotone(x: int, y: int, d: int)
    requires d >= 0 && x >= y
    ensures x * d >= y * d
  {
    assert x * d - y * d == (x - y) * d;
  }

  /** A positive factor can be cancelled from a strict inequality. */
  lemma MulCancel(x: int, y: int, d: int)
    requires d > 0 && x * d < y * d
    ensures x < y
  {
    if x >= y {
      MulMonotone(x, y, d);
    }
  }
}

/** Integer helpers shared by the models: JavaScript's Math.min and Math.max on integers. */
module Arith {

  function Min(a: int, b: int): int
  {
    if a <= b then a else b
  }

  function Max(a: int, b: int): int
  {
    if a >= b then a else b
  }

  /** Multiplication is monotone in both factors when they are non-negative. */
  lemma MulLe(a: int, b: int, c: int, d: int)
    requires 0 <= a <= b && 0 <= c <= d
    ensures a * c <= b * d
  {
  }

  /** A non-positive factor times a non-negative one is non-positive. */
  lemma MulNonPos(a: int, c: int)
    requires a <= 0 <= c
    ensures a * c <= 0
  {
  }
}

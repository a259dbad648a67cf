/**
  Go's integer division and remainder on `int`.

  Go truncates the quotient toward zero, so the remainder takes the sign of the
  dividend; Dafny's `/` and `%` are Euclidean. The program only ever divides by
  the positive constants 2, 3 and 4, so both operations here ask for a positive
  divisor.
 */
module GoArith {

  /** Go's `a / b` for `b > 0`: the quotient truncated toward zero. */
  function Quo(a: int, b: int): (q: int)
    requires b > 0
    ensures a >= 0 ==> 0 <= a - b * q < b
    ensures a < 0 ==> -b < a - b * q <= 0
    ensures a >= 0 ==> q == a / b
  {
    if a >= 0 then a / b else -((-a) / b)
  }

  /** Go's `a % b` for `b > 0`: the remainder takes the sign of the dividend. */
  function Rem(a: int, b: int): (r: int)
    requires b > 0
    ensures a >= 0 ==> 0 <= r < b
    ensures a < 0 ==> -b < r <= 0
  {
    if a >= 0 then a % b else -((-a) % b)
  }

  /** Go's quotient and remainder recombine into the dividend. */
  lemma QuoRemRecombine(a: int, b: int)
    requires b > 0
    ensures a == b * Quo(a, b) + Rem(a, b)
  {
  }

  /** On a non-negative dividend Go's remainder and Dafny's coincide. */
  lemma RemIsEuclideanOnNonNegative(a: int, b: int)
    requires a >= 0 && b > 0
    ensures Rem(a, b) == a % b
  {
  }

  /** On a negative dividend they part ways: `-1 % 3` is `-1` in Go, so a
      backward step computed as `(focused - 1) % 3` from the first column
      would leave the range of columns. */
  lemma RemOfMinusOneIsNegative()
    ensures Rem(-1, 3) == -1
    ensures -1 % 3 == 2
  {
  }
}

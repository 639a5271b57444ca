/**
 * The pieces of Kotlin's integer semantics the model relies on: `/` and `%`
 * truncate toward zero (Dafny's own operators are Euclidean), and `a..b`
 * is a closed IntRange.
 */
module Kotlin {

  function Abs(x: int): nat { if x < 0 then -x else x }

  /** Kotlin `a / b` for a positive divisor: the quotient truncated toward zero. */
  function Div(a: int, b: int): (q: int)
    requires b > 0
    ensures a >= 0 ==> b * q <= a < b * q + b
    ensures a < 0 ==> b * q - b < a <= b * q
  {
    if a >= 0 then a / b else -((-a) / b)
  }

  /** Kotlin `a % b` for a positive divisor: the remainder takes the sign of `a`. */
  function Rem(a: int, b: int): (r: int)
    requires b > 0
    ensures a == Div(a, b) * b + r
    ensures a >= 0 ==> 0 <= r < b
    ensures a < 0 ==> -b < r <= 0
  {
    a - Div(a, b) * b
  }

  /** Kotlin's `first..last`; it is empty when `first > last`. */
  datatype IntRange = IntRange(first: int, last: int) {
    /** Kotlin's `x in range`. */
    predicate Contains(x: int) {
      first <= x <= last
    }
  }
}

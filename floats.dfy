/**
 * A Java `float` as far as comparisons see it: a finite value, one of the two
 * infinities, or NaN. Rounding to 32 bits is not modelled; a finite value is
 * any real number.
 */
module Floats {

  datatype Float = Finite(value: real) | PositiveInfinity | NegativeInfinity | NaN

  /** IEEE 754 `x < c` for a finite constant `c`: false whenever `x` is NaN. */
  predicate Below(x: Float, c: real)
  {
    match x
    case Finite(v) => v < c
    case NegativeInfinity => true
    case PositiveInfinity => false
    case NaN => false
  }

  /** IEEE 754 `x > c` for a finite constant `c`: false whenever `x` is NaN. */
  predicate Above(x: Float, c: real)
  {
    match x
    case Finite(v) => v > c
    case NegativeInfinity => false
    case PositiveInfinity => true
    case NaN => false
  }

  /** `x * k` for a positive finite factor, computed exactly. */
  function Scale(x: Float, k: real): (r: Float)
    requires 0.0 < k
    ensures x.Finite? <==> r.Finite?
    ensures x.Finite? ==> r.value == x.value * k
    ensures !x.Finite? ==> r == x
  {
    match x
    case Finite(v) => Finite(v * k)
    case _ => x
  }
}

/**
 * The scalar parameters of the operations are Python floats (IEEE 754 double
 * precision): they come from `float(text)` and may be NaN or an infinity.
 * A finite value is kept as an exact real; rounding is not modelled.
 */
module Floats {

  datatype Float = Finite(value: real) | Infinite(negative: bool) | NaN

  /** `numpy.finfo(numpy.float64).eps`, 2 to the power -52. */
  const Epsilon: real := 1.0 / 4503599627370496.0

  /** `x > c` under IEEE comparison: false whenever x is NaN. */
  predicate Greater(x: Float, c: real)
  {
    match x
    case Finite(v) => v > c
    case Infinite(negative) => !negative
    case NaN => false
  }

  /** `x < c` under IEEE comparison. */
  predicate Less(x: Float, c: real)
  {
    match x
    case Finite(v) => v < c
    case Infinite(negative) => negative
    case NaN => false
  }

  /** `x <= c` under IEEE comparison. */
  predicate AtMost(x: Float, c: real)
  {
    match x
    case Finite(v) => v <= c
    case Infinite(negative) => negative
    case NaN => false
  }

  /** `x == 0` (both zeros of IEEE are the real 0). */
  predicate IsZero(x: Float)
  {
    x == Finite(0.0)
  }

  /** `1 - x`. */
  function OneMinus(x: Float): Float
  {
    match x
    case Finite(v) => Finite(1.0 - v)
    case Infinite(negative) => Infinite(!negative)
    case NaN => NaN
  }

  /** `x / d` for a positive constant divisor. */
  function DividedBy(x: Float, d: real): Float
    requires d > 0.0
  {
    match x
    case Finite(v) => Finite(v / d)
    case Infinite(negative) => x
    case NaN => NaN
  }
}

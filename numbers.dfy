/** Double-precision readings produced by the numeric layer (V-cycle residuals,
    force changes, compliances). Only what the driver's control flow can observe
    is kept: a reading is a finite value or NaN, and every ordered comparison with
    NaN is false, as in IEEE 754. */
module Numbers {

  datatype Double = Num(val: real) | NaN

  /** `x > t` evaluated on a double. */
  predicate Greater(x: Double, t: real) {
    x.Num? && x.val > t
  }

  /** `x <= t` evaluated on a double. */
  predicate AtMost(x: Double, t: real) {
    x.Num? && x.val <= t
  }

  function Abs(x: real): (r: real)
    ensures r >= 0.0 && (r == x || r == -x)
  {
    if x < 0.0 then -x else x
  }
}

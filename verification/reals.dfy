/** Real-number helpers; `f64` is read as `real`. */
module Reals {
  /** f64::EPSILON. */
  const F64_EPSILON: real := 1.0 / 4503599627370496.0

  function Abs(x: real): real { if x < 0.0 then -x else x }

  function Min(a: real, b: real): real { if a < b then a else b }

  function Max(a: real, b: real): real { if a < b then b else a }

  function Clamp(x: real, low: real, high: real): real {
    if x < low then low else if x > high then high else x
  }
}

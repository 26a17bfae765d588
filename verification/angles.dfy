/**
 Angle values as the firmware handles them: a `float` that is either NaN (the
 inverse kinematics found no solution) or a number of degrees, and the
 conversion of such a float to the `long` the servo interface takes.
 Floating-point rounding is not modelled: a float is a mathematical real.
 */
module Angles {

  /** A joint angle in degrees, or NaN when the kinematics produced none. */
  datatype Angle = NaN | Deg(v: real)

  /** An unsigned 8-bit value (`uint8_t`): speeds, servo ids. */
  type Uint8 = x: int | 0 <= x < 256

  /** A `float` to `long` conversion: C++ truncates toward zero. */
  function Trunc(x: real): (r: int)
    ensures 0.0 <= x ==> r as real <= x < r as real + 1.0
    ensures x < 0.0 ==> r as real - 1.0 < x <= r as real
  {
    if x >= 0.0 then x.Floor else -((-x).Floor)
  }

  /** Truncation never leaves an interval whose ends are integers. */
  lemma TruncWithin(x: real, lo: int, hi: int)
    requires lo as real <= x <= hi as real
    ensures lo <= Trunc(x) <= hi
  {
  }

  /** A `long` converted to `float` and back is unchanged. */
  lemma TruncOfInt(n: int)
    ensures Trunc(n as real) == n
  {
  }
}

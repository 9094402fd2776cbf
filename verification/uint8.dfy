/** Bytes of a canvas `Uint8ClampedArray` and the conversion every store into
    one performs: ToUint8Clamp of section 7.1.12 of ECMA-262 (round to
    nearest, ties to even, saturating at 0 and 255). */
module Uint8 {

  type Byte = x: int | 0 <= x < 256

  /** Smallest integer not below `x`. */
  function Ceil(x: real): (c: int)
    ensures c as real >= x && (c as real) - 1.0 < x
  {
    -((-x).Floor)
  }

  /** The value stored by `data[i] = x` for a (non-NaN) number `x`: out of
      range it saturates, in range it is at most one half away. */
  function ToUint8Clamp(x: real): (b: Byte)
    ensures x <= 0.0 ==> b == 0
    ensures x >= 255.0 ==> b == 255
    ensures 0.0 <= x <= 255.0 ==> -0.5 <= b as real - x <= 0.5
  {
    if x <= 0.0 then 0
    else if x >= 255.0 then 255
    else
      var f := x.Floor;
      if (f as real) + 0.5 < x then f + 1
      else if x < (f as real) + 0.5 then f
      else if f % 2 == 1 then f + 1
      else f
  }

  /** An integral value in range is stored as itself. */
  lemma ToUint8ClampIntegral(n: int)
    requires 0 <= n <= 255
    ensures ToUint8Clamp(n as real) == n
  {
  }

  /** A value in [0, 255] is stored as its nearest integer: between its floor
      and its ceiling, at most one half away, and even on a tie. */
  lemma ToUint8ClampNearest(x: real)
    requires 0.0 <= x <= 255.0
    ensures x.Floor <= ToUint8Clamp(x) <= Ceil(x)
    ensures -0.5 <= ToUint8Clamp(x) as real - x <= 0.5
    ensures ToUint8Clamp(x) as real - x == 0.5 || x - ToUint8Clamp(x) as real == 0.5
            ==> ToUint8Clamp(x) % 2 == 0
  {
  }

  /** Storing is monotone: a larger number never stores a smaller byte. */
  lemma ToUint8ClampMonotone(x: real, y: real)
    requires x <= y
    ensures ToUint8Clamp(x) <= ToUint8Clamp(y)
  {
  }
}

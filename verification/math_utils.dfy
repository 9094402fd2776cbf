/** Numeric helpers of utils/math (pinned by __tests__/math.test.ts) and the
    Math.min/Math.max idiom the app uses inline. */
module MathUtils {

  function Min(x: real, y: real): (m: real)
    ensures m <= x && m <= y && (m == x || m == y)
  {
    if x <= y then x else y
  }

  function Max(x: real, y: real): (m: real)
    ensures m >= x && m >= y && (m == x || m == y)
  {
    if x >= y then x else y
  }

  /** `add(a, b)` of utils/math: taking either argument off the sum gives
      back the other. */
  function Add(a: real, b: real): (s: real)
    ensures s - a == b && s - b == a
  {
    a + b
  }

  /** `clamp(x, lo, hi)`, written as the app writes it inline:
      `Math.max(lo, Math.min(hi, x))`. */
  function Clamp(x: real, lo: real, hi: real): (c: real)
    ensures lo <= hi ==> lo <= c <= hi
    ensures lo <= x <= hi ==> c == x
  {
    Max(lo, Min(hi, x))
  }

  /** For a non-empty interval the result lies in it, is `x` when `x` is
      inside, and is the nearer bound otherwise. */
  lemma ClampInRange(x: real, lo: real, hi: real)
    requires lo <= hi
    ensures lo <= Clamp(x, lo, hi) <= hi
    ensures lo <= x <= hi ==> Clamp(x, lo, hi) == x
    ensures x < lo ==> Clamp(x, lo, hi) == lo
    ensures x > hi ==> Clamp(x, lo, hi) == hi
  {
  }

  /** Clamping is monotone in the clamped value. */
  lemma ClampMonotone(x: real, y: real, lo: real, hi: real)
    requires x <= y
    ensures Clamp(x, lo, hi) <= Clamp(y, lo, hi)
  {
  }

  /** Clamping twice to the same interval is clamping once. */
  lemma ClampIdempotent(x: real, lo: real, hi: real)
    requires lo <= hi
    ensures Clamp(Clamp(x, lo, hi), lo, hi) == Clamp(x, lo, hi)
  {
  }

  /** `add(1, 2)` is 3. */
  lemma AddTest()
    ensures Add(1.0, 2.0) == 3.0
  {
  }

  /** `clamp(10, 0, 5)` is 5, `clamp(-1, 0, 5)` is 0, `clamp(3, 0, 5)` is 3. */
  lemma ClampTests()
    ensures Clamp(10.0, 0.0, 5.0) == 5.0
    ensures Clamp(-1.0, 0.0, 5.0) == 0.0
    ensures Clamp(3.0, 0.0, 5.0) == 3.0
  {
  }
}

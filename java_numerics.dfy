/** Java's narrowing conversion of a float to int, taken over exact reals. */
module JavaNumerics {

  const IntMin: int := -0x8000_0000
  const IntMax: int := 0x7FFF_FFFF

  /** Rounds toward zero: the integer part of x, keeping its sign. */
  function TruncateTowardZero(x: real): (r: int)
    ensures 0.0 <= x ==> 0 <= r && r as real <= x < r as real + 1.0
    ensures x < 0.0 ==> r <= 0 && r as real - 1.0 < x <= r as real
  {
    if x >= 0.0 then x.Floor else -((-x).Floor)
  }

  /** The `(int)` cast of a finite float: truncation toward zero, saturating
      at the ends of the 32-bit range. */
  function IntCast(x: real): (r: int)
    ensures IntMin <= r <= IntMax
    ensures IntMin as real < x < IntMax as real ==> r == TruncateTowardZero(x)
    ensures IntMax as real <= x ==> r == IntMax
    ensures x <= IntMin as real ==> r == IntMin
  {
    if x >= IntMax as real then IntMax
    else if x <= IntMin as real then IntMin
    else TruncateTowardZero(x)
  }

  /** The `(int)` cast of the float quotient `num / den`. A zero divisor gives
      an infinity (cast to the nearest end of the range) or, for 0/0, NaN
      (cast to 0); the divisor is taken to be +0. */
  function CastQuotient(num: real, den: real): (r: int)
    ensures IntMin <= r <= IntMax
    ensures den != 0.0 ==> r == IntCast(num / den)
    ensures den == 0.0 ==> r == (if num > 0.0 then IntMax else if num < 0.0 then IntMin else 0)
  {
    if den != 0.0 then IntCast(num / den)
    else if num > 0.0 then IntMax
    else if num < 0.0 then IntMin
    else 0
  }

  /** A quotient within the int range is cast by truncation toward zero. */
  lemma CastInRange(num: real, den: real)
    requires den != 0.0 && IntMin as real < num / den < IntMax as real
    ensures CastQuotient(num, den) == TruncateTowardZero(num / den)
  {
  }

  /** Java's float remainder `x % 1.0f`: x less its integer part truncated
      toward zero, so the result keeps the sign of x. */
  function RemainderOfOne(x: real): (r: real)
    ensures -1.0 < r < 1.0
    ensures 0.0 <= x ==> 0.0 <= r
    ensures x <= 0.0 ==> r <= 0.0
  {
    x - TruncateTowardZero(x) as real
  }
}

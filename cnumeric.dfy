/** Numeric conversions of C++ written out over Dafny's unbounded integers and reals.
    Dafny's `/` and `%` on `int` are Euclidean; C++ truncates toward zero, so the
    engines use the functions below wherever the source divides or casts. */
module CNumeric {

  datatype Option<T> = None | Some(value: T)

  /** Conversion of a floating value to an integer type (`int(x)`, `int64_t(x)`,
      `static_cast<signed short>(x)`): truncation toward zero. */
  function Trunc(x: real): (r: int)
    ensures 0.0 <= x ==> 0 <= r && r as real <= x < r as real + 1.0
    ensures x < 0.0 ==> r <= 0 && r as real - 1.0 < x <= r as real
  {
    if x >= 0.0 then x.Floor else -((-x).Floor)
  }

  /** Division of a non-negative number leaves a remainder below the divisor. */
  lemma DivRemainder(a: int, d: int)
    requires 0 <= a && d > 0
    ensures 0 <= a / d && 0 <= a - d * (a / d) < d
  {
    assert a % d == a - d * (a / d);
  }

  /** The quotient of C++ integer division (`std::div(a, d).quot`), rounding toward zero. */
  function Quot(a: int, d: int): (q: int)
    requires d > 0
    ensures 0 <= a ==> 0 <= q && 0 <= a - d * q < d
    ensures a < 0 ==> q <= 0 && -d < a - d * q <= 0
  {
    if a >= 0 then DivRemainder(a, d); a / d
    else DivRemainder(-a, d); -((-a) / d)
  }

  /** Conversion of an integer to `uint8_t`: reduction modulo 256. */
  function Uint8(x: int): (r: int)
    ensures 0 <= r < 256
    ensures (x - r) % 256 == 0
  {
    x % 256
  }

  /** `std::clamp(x, lo, hi)` on doubles. */
  function Clamp(x: real, lo: real, hi: real): (r: real)
    requires lo <= hi
    ensures lo <= r <= hi
    ensures lo <= x <= hi ==> r == x
    ensures x < lo ==> r == lo
    ensures hi < x ==> r == hi
  {
    if x < lo then lo else if hi < x then hi else x
  }

  function Min(a: int, b: int): int { if a <= b then a else b }

  function Max(a: int, b: int): int { if a >= b then a else b }

  function Abs(x: real): real { if x < 0.0 then -x else x }
}

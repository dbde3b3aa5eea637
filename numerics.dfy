/**
 * The floating-point library the C++ code calls (libm and BLAS) is not part
 * of this model.  Its functions are passed in as the fields of a Numerics
 * value, and the constants are the decimal values of the C macros.
 */
module Numerics {
  datatype Numerics = Numerics(
    sqrt: real -> real,
    cos: real -> real,
    sin: real -> real,
    acos: real -> real,
    atan2: (real, real) -> real,
    pow: (real, real) -> real)

  /** SEISPP::Complex, a pair of doubles. */
  datatype Complex = Complex(re: real, im: real)

  /** FLT_EPSILON, 2^-23. */
  const FltEpsilon: real := 0.00000011920928955078125

  /** M_PI and M_PI_2 as the double literals of math.h. */
  const Pi: real := 3.141592653589793
  const HalfPi: real := 1.5707963267948966

  /** Degrees to radians, as the rad macro computes it. */
  function Rad(deg: real): real { deg * Pi / 180.0 }

  /** Absolute value of a real. */
  function Abs(x: real): (r: real)
    ensures r >= 0.0 && (r == x || r == -x)
  {
    if x < 0.0 then -x else x
  }

  /** nint as SEISPP defines it: an integer within half a unit of its argument. */
  ghost predicate RoundsToNearest(nint: real -> int)
  {
    forall x: real :: Abs(nint(x) as real - x) <= 0.5
  }

  /** Such an nint leaves an integral argument unchanged. */
  lemma NintOfInteger(nint: real -> int, n: int)
    requires RoundsToNearest(nint)
    ensures nint(n as real) == n
  {
    assert Abs(nint(n as real) as real - n as real) <= 0.5;
  }

  /** Largest integer not above x: trunc() for the non-negative arguments the code passes. */
  function Trunc(x: real): (r: int)
    requires x >= 0.0
    ensures r >= 0 && r as real <= x < r as real + 1.0
  {
    x.Floor
  }

  /** C's int division, which truncates toward zero where Dafny's / is Euclidean. */
  function CDiv(a: int, b: int): (q: int)
    requires b != 0
    ensures a >= 0 && b > 0 ==> q == a / b
    ensures a >= 0 && b < 0 ==> q <= 0
  {
    if b > 0 then
      if a >= 0 then a / b else -((-a) / b)
    else
      if a >= 0 then -(a / -b) else (-a) / (-b)
  }

  /** A C cast of a double to int: truncation toward zero. */
  function CTrunc(x: real): (n: int)
    ensures Abs(n as real) <= Abs(x) < Abs(n as real) + 1.0
    ensures n == 0 || (n > 0) == (x > 0.0)
  {
    if x >= 0.0 then x.Floor else -((-x).Floor)
  }
}

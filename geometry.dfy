/** Three-vectors in the real field, the coordinates the particle-motion code works in. */
module Geometry {
  import opened Numerics

  datatype Vec3 = Vec3(x: real, y: real, z: real)

  const Origin: Vec3 := Vec3(0.0, 0.0, 0.0)

  function Add(a: Vec3, b: Vec3): Vec3 { Vec3(a.x + b.x, a.y + b.y, a.z + b.z) }

  function Scale(s: real, a: Vec3): Vec3 { Vec3(s * a.x, s * a.y, s * a.z) }

  function Neg(a: Vec3): Vec3 { Vec3(-a.x, -a.y, -a.z) }

  function Dot(a: Vec3, b: Vec3): real { a.x * b.x + a.y * b.y + a.z * b.z }

  /** Component k (0, 1 or 2) of a vector, as the C++ code indexes a double[3]. */
  function Component(a: Vec3, k: int): real
    requires 0 <= k < 3
  {
    if k == 0 then a.x else if k == 1 then a.y else a.z
  }

  /** Euclidean length as dnrm2 computes it. */
  function Norm(num: Numerics, v: Vec3): real
  {
    num.sqrt(Dot(v, v))
  }

  /**
   * Division of a vector by its norm, as dscal(1/nrm) or a per-component
   * division does it.  For a zero norm IEEE arithmetic gives infinities or
   * NaNs, which reals cannot express; the vector is left as it is then.
   */
  function Normalized(v: Vec3, nrm: real): (u: Vec3)
    ensures nrm != 0.0 ==> Scale(nrm, u) == v
  {
    if nrm == 0.0 then v else Scale(1.0 / nrm, v)
  }

  /** A dnrm2 that returns the square root of the sum of squares exactly. */
  predicate ExactNorm(num: Numerics, v: Vec3)
  {
    var q := Dot(v, v);
    num.sqrt(q) >= 0.0 && num.sqrt(q) * num.sqrt(q) == q
  }

  /** Dividing a non-zero vector by its exact norm gives a unit vector. */
  lemma NormalizedIsUnit(num: Numerics, v: Vec3)
    requires ExactNorm(num, v) && Dot(v, v) > 0.0
    ensures Dot(Normalized(v, Norm(num, v)), Normalized(v, Norm(num, v))) == 1.0
  {
    var n := Norm(num, v);
    assert n == num.sqrt(Dot(v, v));
    assert n * n == Dot(v, v);
    assert n != 0.0;
    var u := Scale(1.0 / n, v);
    calc {
      Dot(u, u);
      (1.0 / n) * (1.0 / n) * Dot(v, v);
      (1.0 / n) * (1.0 / n) * (n * n);
      1.0;
    }
  }

  lemma DotNeg(u: Vec3, v: Vec3)
    ensures Dot(u, Neg(v)) == -Dot(u, v)
  {
  }

  lemma DotSelfNonNegative(v: Vec3)
    ensures Dot(v, v) >= 0.0
  {
    assert v.x * v.x >= 0.0 && v.y * v.y >= 0.0 && v.z * v.z >= 0.0;
  }
}

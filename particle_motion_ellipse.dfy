/**
 * ParticleMotionEllipse: a particle-motion ellipse in three-space, given by
 * unit vectors along its major and minor axes and the axis lengths.
 */
module ParticleMotionEllipse {
  import opened Failures
  import opened Numerics
  import opened Geometry

  datatype Ellipse = Ellipse(major: Vec3, minor: Vec3, majornrm: real, minornrm: real)

  /** The default constructor and zero(): every attribute 0. */
  function Zero(): Ellipse
  {
    Ellipse(Origin, Origin, 0.0, 0.0)
  }

  /** The constructor from two axis vectors: lengths by dnrm2, directions by division. */
  function FromAxes(num: Numerics, majin: Vec3, minin: Vec3): (e: Ellipse)
    ensures e.majornrm == Norm(num, majin)
    ensures e.minornrm == Norm(num, minin)
    ensures e.majornrm != 0.0 ==> Scale(e.majornrm, e.major) == majin
    ensures e.minornrm != 0.0 ==> Scale(e.minornrm, e.minor) == minin
  {
    var a := Norm(num, majin);
    var b := Norm(num, minin);
    Ellipse(Normalized(majin, a), Normalized(minin, b), a, b)
  }

  /** std::abs and the phase of a complex number. */
  function Modulus(num: Numerics, c: Complex): real { num.sqrt(c.re * c.re + c.im * c.im) }

  function Phase(num: Numerics, c: Complex): real { num.atan2(c.im, c.re) }

  /**
   * The test for negligible phasors as written: rz is tested twice and rx
   * never, so a large x with small y and z counts as negligible.
   */
  predicate NegligibleAsWritten(rx: real, ry: real, rz: real)
  {
    rz < FltEpsilon && ry < FltEpsilon && rz < FltEpsilon
  }

  /** The evidently intended test: all three amplitudes below FLT_EPSILON. */
  predicate Negligible(rx: real, ry: real, rz: real)
  {
    rx < FltEpsilon && ry < FltEpsilon && rz < FltEpsilon
  }

  /** The orientation rule: flip a direction whose projection on up is negative. */
  function Oriented(up: Vec3, v: Vec3): (r: Vec3)
    ensures Dot(up, r) >= 0.0
    ensures r == v || r == Neg(v)
    ensures Dot(up, v) >= 0.0 ==> r == v
  {
    if Dot(up, v) < 0.0 then DotNeg(up, v); Neg(v) else v
  }

  /**
   * Major/minor selection: the longer candidate becomes the major axis; on
   * a tie the second candidate (phase phi1 + pi/2) is taken as major.
   */
  function Arranged(up: Vec3, x1: Vec3, n1: real, x2: Vec3, n2: real): (e: Ellipse)
    ensures e.majornrm >= e.minornrm
    ensures Dot(up, e.major) >= 0.0 && Dot(up, e.minor) >= 0.0
    ensures n1 > n2 ==>
      (e.majornrm == n1 && e.minornrm == n2
       && e.major == Oriented(up, Normalized(x1, n1)) && e.minor == Oriented(up, Normalized(x2, n2)))
    ensures n1 <= n2 ==>
      (e.majornrm == n2 && e.minornrm == n1
       && e.major == Oriented(up, Normalized(x2, n2)) && e.minor == Oriented(up, Normalized(x1, n1)))
  {
    if n1 > n2 then Ellipse(Oriented(up, Normalized(x1, n1)), Oriented(up, Normalized(x2, n2)), n1, n2)
    else Ellipse(Oriented(up, Normalized(x2, n2)), Oriented(up, Normalized(x1, n1)), n2, n1)
  }

  /**
   * The candidate axis at phase phi: component k is r_k cos(phi + theta_k),
   * the real part of the phasor rotated by phi.
   */
  function AxisAt(num: Numerics, phi: real, x: Complex, y: Complex, z: Complex): Vec3
  {
    Vec3(Modulus(num, x) * num.cos(phi + Phase(num, x)),
         Modulus(num, y) * num.cos(phi + Phase(num, y)),
         Modulus(num, z) * num.cos(phi + Phase(num, z)))
  }

  /**
   * The phase phi1 that extremises the length of the rotated real part:
   * half of atan2(-b, a) with a and b the sums of r_k^2 cos(2 theta_k) and
   * r_k^2 sin(2 theta_k).
   */
  function ExtremalPhase(num: Numerics, x: Complex, y: Complex, z: Complex): real
  {
    var rx, ry, rz := Modulus(num, x), Modulus(num, y), Modulus(num, z);
    var tx, ty, tz := Phase(num, x), Phase(num, y), Phase(num, z);
    var a := rx * rx * num.cos(2.0 * tx) + ry * ry * num.cos(2.0 * ty) + rz * rz * num.cos(2.0 * tz);
    var b := rx * rx * num.sin(2.0 * tx) + ry * ry * num.sin(2.0 * ty) + rz * rz * num.sin(2.0 * tz);
    num.atan2(-b, a) / 2.0
  }

  /** The ellipse of three non-negligible phasors. */
  function FromPhasors(num: Numerics, x: Complex, y: Complex, z: Complex, up: Vec3): (e: Ellipse)
    ensures e.majornrm >= e.minornrm
    ensures Dot(up, e.major) >= 0.0 && Dot(up, e.minor) >= 0.0
  {
    var phi1 := ExtremalPhase(num, x, y, z);
    var phi2 := phi1 + HalfPi;
    var x1 := AxisAt(num, phi1, x, y, z);
    var x2 := AxisAt(num, phi2, x, y, z);
    Arranged(up, x1, Norm(num, x1), x2, Norm(num, x2))
  }

  /** The analytic constructor as written, with its faulty negligibility test. */
  function AnalyticAsWritten(num: Numerics, x: Complex, y: Complex, z: Complex, up: Vec3): Ellipse
  {
    if NegligibleAsWritten(Modulus(num, x), Modulus(num, y), Modulus(num, z)) then Zero()
    else FromPhasors(num, x, y, z, up)
  }

  /**
   * The analytic constructor with the intended test: negligible phasors
   * give the zero ellipse; otherwise the axes are ordered by length and
   * both point into the half-space of up.
   */
  function Analytic(num: Numerics, x: Complex, y: Complex, z: Complex, up: Vec3): (e: Ellipse)
    ensures Negligible(Modulus(num, x), Modulus(num, y), Modulus(num, z)) ==> e == Zero()
    ensures e.majornrm >= e.minornrm
    ensures Dot(up, e.major) >= 0.0 && Dot(up, e.minor) >= 0.0
  {
    if Negligible(Modulus(num, x), Modulus(num, y), Modulus(num, z)) then Zero()
    else FromPhasors(num, x, y, z, up)
  }

  /**
   * The as-written test zeroes an ellipse whose x phasor has amplitude 1:
   * with y = z = 0 and a square root that is exact at 0 and 1 the
   * constructor returns the zero ellipse, which the intended test does not.
   */
  lemma AnalyticIgnoresX(num: Numerics, up: Vec3)
    requires num.sqrt(0.0) == 0.0 && num.sqrt(1.0) == 1.0
    ensures var x, o := Complex(1.0, 0.0), Complex(0.0, 0.0);
      && Modulus(num, x) == 1.0
      && AnalyticAsWritten(num, x, o, o, up) == Zero()
      && !Negligible(Modulus(num, x), Modulus(num, o), Modulus(num, o))
  {
    var x, o := Complex(1.0, 0.0), Complex(0.0, 0.0);
    assert x.re * x.re + x.im * x.im == 1.0;
    assert o.re * o.re + o.im * o.im == 0.0;
  }

  /** The result of cgesvd: its info code and the first left singular vector. */
  datatype SvdResult = SvdResult(info: int, ux: Complex, uy: Complex, uz: Complex)

  /**
   * The work matrix handed to cgesvd: a 3 x ntw column-major matrix whose
   * column i holds the x, y and z samples at time i.
   */
  method LoadWorkMatrix(xw: seq<Complex>, yw: seq<Complex>, zw: seq<Complex>) returns (a: seq<Complex>)
    requires |yw| >= |xw| && |zw| >= |xw|
    ensures |a| == 3 * |xw|
    ensures forall i :: 0 <= i < |xw| ==> a[3 * i] == xw[i] && a[3 * i + 1] == yw[i] && a[3 * i + 2] == zw[i]
  {
    a := [];
    var i := 0;
    while i < |xw|
      invariant 0 <= i <= |xw|
      invariant |a| == 3 * i
      invariant forall k :: 0 <= k < i ==> a[3 * k] == xw[k] && a[3 * k + 1] == yw[k] && a[3 * k + 2] == zw[k]
    {
      a := a + [xw[i], yw[i], zw[i]];
      i := i + 1;
    }
  }

  /**
   * The time-window constructor on already windowed samples: load the work
   * matrix, take the principal left singular vector, and build the analytic
   * ellipse of its three entries.  A non-zero info code throws.
   */
  method Windowed(num: Numerics, xw: seq<Complex>, yw: seq<Complex>, zw: seq<Complex>, up: Vec3,
                  svd: seq<Complex> -> SvdResult) returns (r: Result<Ellipse>)
    requires |yw| >= |xw| && |zw| >= |xw|
    ensures var s := svd(WorkMatrix(xw, yw, zw));
      && (r.Ok? <==> s.info == 0)
      && (r.Ok? ==> r.value == Analytic(num, s.ux, s.uy, s.uz, up))
  {
    var a := LoadWorkMatrix(xw, yw, zw);
    WorkMatrixUnique(xw, yw, zw, a);
    var s := svd(a);
    if s.info != 0 {
      return Throw("ParticleMotionEllipse(ComplexTimeSeries contructor):  cgesvd returned an error");
    }
    r := Ok(Analytic(num, s.ux, s.uy, s.uz, up));
  }

  /** The interleaved work matrix as a value. */
  function WorkMatrix(xw: seq<Complex>, yw: seq<Complex>, zw: seq<Complex>): seq<Complex>
    requires |yw| >= |xw| && |zw| >= |xw|
  {
    seq(3 * |xw|, k requires 0 <= k < 3 * |xw| =>
      if k % 3 == 0 then xw[k / 3] else if k % 3 == 1 then yw[k / 3] else zw[k / 3])
  }

  lemma WorkMatrixUnique(xw: seq<Complex>, yw: seq<Complex>, zw: seq<Complex>, a: seq<Complex>)
    requires |yw| >= |xw| && |zw| >= |xw|
    requires |a| == 3 * |xw|
    requires forall i :: 0 <= i < |xw| ==> a[3 * i] == xw[i] && a[3 * i + 1] == yw[i] && a[3 * i + 2] == zw[i]
    ensures a == WorkMatrix(xw, yw, zw)
  {
    var w := WorkMatrix(xw, yw, zw);
    forall k | 0 <= k < |a|
      ensures a[k] == w[k]
    {
      var i := k / 3;
      assert k == 3 * i + k % 3;
    }
  }

  /** rectilinearity: 1 - minor/major when both axes exceed FLT_EPSILON, else 0. */
  function Rectilinearity(e: Ellipse): real
  {
    if e.minornrm > FltEpsilon && e.majornrm > FltEpsilon then 1.0 - e.minornrm / e.majornrm else 0.0
  }

  /** For an ellipse whose major axis is the longer one, rectilinearity lies in [0, 1). */
  lemma RectilinearityBounds(e: Ellipse)
    requires e.majornrm >= e.minornrm
    ensures 0.0 <= Rectilinearity(e) < 1.0
  {
    if e.minornrm > FltEpsilon && e.majornrm > FltEpsilon {
      var q := e.minornrm / e.majornrm;
      assert q * e.majornrm == e.minornrm;
      assert 0.0 < q <= 1.0;
    }
  }

  /** Every ellipse the analytic constructor builds has rectilinearity in [0, 1). */
  lemma AnalyticRectilinearity(num: Numerics, x: Complex, y: Complex, z: Complex, up: Vec3)
    ensures 0.0 <= Rectilinearity(Analytic(num, x, y, z, up)) < 1.0
  {
    RectilinearityBounds(Analytic(num, x, y, z, up));
  }

  /** Inclination from vertical: acos of the axis' z component. */
  function MajorInclination(num: Numerics, e: Ellipse): real { num.acos(e.major.z) }

  function MinorInclination(num: Numerics, e: Ellipse): real { num.acos(e.minor.z) }

  /** Azimuth clockwise from north: pi/2 - atan2(y, x). */
  function MajorAzimuth(num: Numerics, e: Ellipse): real { HalfPi - num.atan2(e.major.y, e.major.x) }

  function MinorAzimuth(num: Numerics, e: Ellipse): real { HalfPi - num.atan2(e.minor.y, e.minor.x) }

  /** The point of the ellipse at phase phi: majornrm cos(phi) major + minornrm sin(phi) minor. */
  function PointAt(num: Numerics, e: Ellipse, phi: real): Vec3
  {
    Add(Scale(e.majornrm * num.cos(phi), e.major), Scale(e.minornrm * num.sin(phi), e.minor))
  }

  /** The phase step of points(n): 2 pi / n. */
  function PhaseStep(n: int): real
  {
    if n == 0 then 0.0 else 2.0 * Pi / n as real
  }

  /** Point k of points(n), at phase k * 2 pi / n. */
  function NthPoint(num: Numerics, e: Ellipse, n: int, k: int): Vec3
  {
    PointAt(num, e, k as real * PhaseStep(n))
  }

  /**
   * points(n): n points at phases 0, dphi, 2 dphi, ... with dphi = 2 pi / n,
   * one per row of an n x 3 matrix; the first point is not repeated.
   */
  method Points(num: Numerics, e: Ellipse, n: int) returns (rows: seq<Vec3>)
    requires n >= 0
    ensures |rows| == n
    ensures forall i :: 0 <= i < n ==> rows[i] == NthPoint(num, e, n, i)
  {
    var dphi := PhaseStep(n);
    rows := [];
    var i := 0;
    var phi := 0.0;
    while i < n
      invariant 0 <= i <= n
      invariant phi == i as real * dphi
      invariant |rows| == i
      invariant forall k :: 0 <= k < i ==> rows[k] == NthPoint(num, e, n, k)
    {
      var xp := Origin;
      xp := Add(Scale(e.majornrm * num.cos(phi), e.major), xp);
      xp := Add(Scale(e.minornrm * num.sin(phi), e.minor), xp);
      assert xp == PointAt(num, e, phi);
      assert phi == i as real * PhaseStep(n);
      assert NthPoint(num, e, n, i) == PointAt(num, e, i as real * PhaseStep(n));
      assert PointAt(num, e, phi) == NthPoint(num, e, n, i);
      rows := rows + [xp];
      assert (i + 1) as real * dphi == i as real * dphi + dphi;
      i := i + 1;
      phi := phi + dphi;
    }
  }

  /** With cos 0 = 1 and sin 0 = 0 the first point is the end of the major semi-axis. */
  lemma FirstPointOnMajorAxis(num: Numerics, e: Ellipse, n: int)
    requires num.cos(0.0) == 1.0 && num.sin(0.0) == 0.0
    ensures NthPoint(num, e, n, 0) == Scale(e.majornrm, e.major)
  {
    assert 0 as real * PhaseStep(n) == 0.0;
  }
}

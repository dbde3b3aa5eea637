/**
 * regularize_angle: reduce an angle, in degrees or radians, to the
 * standard range of one turn centred on zero by adding or subtracting whole
 * turns.  Angles beyond 100000 in magnitude are rejected as absurd.
 */
module RegularizeAngle {
  import opened Failures
  import opened Numerics

  const Absurd: real := 100000.0

  const AbsurdAngle: string := "regularize_phi: Function was passed an absurd angle - coding error"

  /** b shifted by k whole turns. */
  function Shifted(b: real, k: int, turn: real): real
  {
    b + k as real * turn
  }

  /** a differs from b by a whole number of turns. */
  ghost predicate SameDirection(a: real, b: real, turn: real)
  {
    exists k: int :: a == Shifted(b, k, turn)
  }

  /**
   * The reduction as written.  Above the range it subtracts turns until the
   * angle is at most half a turn; below the range it adds turns while the
   * angle is below +half a turn, which overshoots into [half, 3 half).
   */
  method RegularizeAsWritten(phi0: real, radians: bool) returns (r: Result<real>)
    ensures Abs(phi0) > Absurd <==> r.Err?
    ensures r.Ok? ==> var half := if radians then Pi else 180.0;
      && SameDirection(r.value, phi0, 2.0 * half)
      && (-half <= phi0 <= half ==> r.value == phi0)
      && (phi0 > half ==> -half < r.value <= half)
      && (phi0 < -half ==> half <= r.value < 3.0 * half)
  {
    if Abs(phi0) > Absurd {
      return Throw(AbsurdAngle);
    }
    var phi := phi0;
    ghost var k := 0;
    if radians {
      if phi > Pi {
        while phi > Pi
          invariant phi > -Pi
          invariant phi == Shifted(phi0, k, 2.0 * Pi)
          decreases ((phi - Pi) / (2.0 * Pi)).Floor
        {
          phi := phi - 2.0 * Pi;
          k := k - 1;
        }
      } else if phi < -Pi {
        while phi < Pi
          invariant phi < 3.0 * Pi
          invariant phi == Shifted(phi0, k, 2.0 * Pi)
          decreases ((Pi - phi) / (2.0 * Pi)).Floor
        {
          phi := phi + 2.0 * Pi;
          k := k + 1;
        }
      }
    } else {
      if phi > 180.0 {
        while phi > 180.0
          invariant phi > -180.0
          invariant phi == Shifted(phi0, k, 360.0)
          decreases ((phi - 180.0) / 360.0).Floor
        {
          phi := phi - 360.0;
          k := k - 1;
        }
      } else if phi < -180.0 {
        while phi < 180.0
          invariant phi < 540.0
          invariant phi == Shifted(phi0, k, 360.0)
          decreases ((180.0 - phi) / 360.0).Floor
        {
          phi := phi + 360.0;
          k := k + 1;
        }
      }
    }
    ghost var half := if radians then Pi else 180.0;
    assert phi == Shifted(phi0, k, 2.0 * half);
    r := Ok(phi);
  }

  /**
   * The reduction as documented: the result lies in [-half, half] and
   * points in the same direction as the input; an angle already in range
   * is returned unchanged.
   */
  method Regularize(phi0: real, radians: bool) returns (r: Result<real>)
    ensures Abs(phi0) > Absurd <==> r.Err?
    ensures r.Ok? ==> var half := if radians then Pi else 180.0;
      && SameDirection(r.value, phi0, 2.0 * half)
      && -half <= r.value <= half
      && (-half <= phi0 <= half ==> r.value == phi0)
  {
    if Abs(phi0) > Absurd {
      return Throw(AbsurdAngle);
    }
    var phi := phi0;
    ghost var k := 0;
    if radians {
      if phi > Pi {
        while phi > Pi
          invariant phi > -Pi
          invariant phi == Shifted(phi0, k, 2.0 * Pi)
          decreases ((phi - Pi) / (2.0 * Pi)).Floor
        {
          phi := phi - 2.0 * Pi;
          k := k - 1;
        }
      } else if phi < -Pi {
        while phi < -Pi
          invariant phi < Pi
          invariant phi == Shifted(phi0, k, 2.0 * Pi)
          decreases ((-Pi - phi) / (2.0 * Pi)).Floor
        {
          phi := phi + 2.0 * Pi;
          k := k + 1;
        }
      }
    } else {
      if phi > 180.0 {
        while phi > 180.0
          invariant phi > -180.0
          invariant phi == Shifted(phi0, k, 360.0)
          decreases ((phi - 180.0) / 360.0).Floor
        {
          phi := phi - 360.0;
          k := k - 1;
        }
      } else if phi < -180.0 {
        while phi < -180.0
          invariant phi < 180.0
          invariant phi == Shifted(phi0, k, 360.0)
          decreases ((-180.0 - phi) / 360.0).Floor
        {
          phi := phi + 360.0;
          k := k + 1;
        }
      }
    }
    ghost var half := if radians then Pi else 180.0;
    assert phi == Shifted(phi0, k, 2.0 * half);
    r := Ok(phi);
  }

  /**
   * What the as-written reduction returns for -190 degrees: the only angle
   * in [180, 540) in the direction of -190 is 530, outside the documented
   * range, where the documented reduction gives 170.
   */
  lemma MinusOneNinetyDegrees(r: real, s: real)
    requires 180.0 <= r < 540.0 && SameDirection(r, -190.0, 360.0)
    requires -180.0 <= s <= 180.0 && SameDirection(s, -190.0, 360.0)
    ensures r == 530.0 && r > 180.0
    ensures s == 170.0
  {
    var k :| r == Shifted(-190.0, k, 360.0);
    var m :| s == Shifted(-190.0, m, 360.0);
    assert k == 2;
    assert m == 1;
  }
}

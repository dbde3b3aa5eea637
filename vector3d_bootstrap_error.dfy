/**
 * Vector3DBootstrapError: a bootstrap confidence interval for the direction
 * of a set of three-component unit vectors.  Trials are drawn with
 * replacement, their componentwise median (normalised) is the centre, and
 * the error is an order statistic of the angles between trials and centre.
 *
 * random_array_index draws from a uniform distribution on 1..range and
 * subtracts one; the draws are passed in as a sequence of die outcomes.
 * median<double> is passed in as a function.
 */
module Vector3DBootstrapError {
  import opened Failures
  import opened Numerics
  import opened Geometry
  import opened Sorting

  const Base: string := "Vector3DBootstrapError constructor:  "
  const ConfidenceError: string := Base
    + "Illegal confidence interval requested - must be probability level (i.e greater than 0 and less than 1.0)"
  const BoundError: string := Base
    + "Coding problem - computed position of confidence outside array bound"

  /** The constructed object: the median direction, the angle error and the confidence level. */
  datatype Estimate = Estimate(centre: Vec3, aci: real, cl: real)

  /** random_array_index: a die outcome in 1..range shifted to a C array index. */
  function ArrayIndex(range: int, dfort: int): (r: int)
    requires 1 <= dfort <= range
    ensures 0 <= r < range
    ensures r + 1 == dfort
  {
    dfort - 1
  }

  predicate DiceFit(dice: seq<int>, nx: int)
  {
    forall i :: 0 <= i < |dice| ==> 1 <= dice[i] <= nx
  }

  /** The resampled columns: trial i is the input column the i-th draw picks. */
  function Trials(x: seq<Vec3>, dice: seq<int>): (t: seq<Vec3>)
    requires DiceFit(dice, |x|)
    ensures |t| == |dice|
  {
    seq(|dice|, i requires 0 <= i < |dice| => x[ArrayIndex(|x|, dice[i])])
  }

  /** Row k of the trials matrix. */
  function ComponentRow(t: seq<Vec3>, k: int): (row: seq<real>)
    requires 0 <= k < 3
    ensures |row| == |t|
  {
    seq(|t|, i requires 0 <= i < |t| => Component(t[i], k))
  }

  /** The componentwise median before normalisation. */
  function MedianVector(median: seq<real> -> real, t: seq<Vec3>): Vec3
  {
    Vec3(median(ComponentRow(t, 0)), median(ComponentRow(t, 1)), median(ComponentRow(t, 2)))
  }

  /** The centre: the median vector divided by its length. */
  function Centre(num: Numerics, median: seq<real> -> real, t: seq<Vec3>): Vec3
  {
    var m := MedianVector(median, t);
    Normalized(m, Norm(num, m))
  }

  /** Angle between each trial and the centre, by acos of the dot product. */
  function Angles(num: Numerics, t: seq<Vec3>, c: Vec3): (a: seq<real>)
    ensures |a| == |t|
  {
    seq(|t|, i requires 0 <= i < |t| => num.acos(Dot(t[i], c)))
  }

  /** rint in the default rounding mode: to the nearest integer, ties to even. */
  function Rint(x: real): (n: int)
    ensures Abs(n as real - x) <= 0.5
    ensures Abs(n as real - x) == 0.5 ==> n % 2 == 0
  {
    var f := x.Floor;
    var d := x - f as real;
    if d < 0.5 then f
    else if d > 0.5 then f + 1
    else if f % 2 == 0 then f
    else f + 1
  }

  /** nconf: the rounded quantile position, pulled back to T-1 when it lands on T. */
  function QuantileIndex(trials: int, confidence: real): int
  {
    var n := Rint(trials as real * confidence);
    if n == trials then trials - 1 else n
  }

  /** For at least one trial and a legal confidence the position is an index of the angle list. */
  lemma QuantileIndexInRange(trials: int, confidence: real)
    requires trials >= 1 && 0.0 < confidence <= 1.0
    ensures 0 <= QuantileIndex(trials, confidence) < trials
  {
    var x := trials as real * confidence;
    assert 0.0 < x <= trials as real by {
      assert trials as real * confidence <= trials as real * 1.0;
    }
    var n := Rint(x);
    assert -0.5 <= n as real - x <= 0.5;
  }

  /** The dot product accumulated component by component, as the angle loop does it. */
  method DotProduct(u: Vec3, v: Vec3) returns (d: real)
    ensures d == Dot(u, v)
  {
    d := 0.0;
    var k := 0;
    while k < 3
      invariant 0 <= k <= 3
      invariant d == PartialDot(u, v, k)
    {
      d := d + Component(u, k) * Component(v, k);
      k := k + 1;
    }
    assert PartialDot(u, v, 1) == u.x * v.x;
    assert PartialDot(u, v, 2) == u.x * v.x + u.y * v.y;
  }

  function PartialDot(u: Vec3, v: Vec3, k: int): real
    requires 0 <= k <= 3
  {
    if k == 0 then 0.0 else PartialDot(u, v, k - 1) + Component(u, k - 1) * Component(v, k - 1)
  }

  /**
   * The constructor, with the trial-copy loop stepping its component index
   * and the quantile guard rejecting a position below zero as well as one
   * at or past the end.
   */
  method Bootstrap(num: Numerics, median: seq<real> -> real, x: seq<Vec3>,
                   confidence: real, numberTrials: int, dice: seq<int>)
    returns (r: Result<Estimate>)
    requires |dice| == numberTrials && DiceFit(dice, |x|)
    ensures !(0.0 < confidence <= 1.0) ==> r == Err(Thrown(ConfidenceError))
    ensures 0.0 < confidence <= 1.0 && numberTrials == 0 ==> r == Err(Thrown(BoundError))
    ensures 0.0 < confidence <= 1.0 && numberTrials > 0 ==>
      var t := Trials(x, dice);
      var c := Centre(num, median, t);
      0 <= QuantileIndex(numberTrials, confidence) < numberTrials &&
      r == Ok(Estimate(c, SortedCopy(Angles(num, t, c))[QuantileIndex(numberTrials, confidence)], confidence))
  {
    if confidence > 1.0 || confidence <= 0.0 {
      return Throw(ConfidenceError);
    }
    var cl := confidence;
    var trials := Resample(x, dice);
    var centre := MedianCentre(num, median, trials);
    var work := AngleList(num, trials, centre);
    Sort(work);
    var nconf := Rint(numberTrials as real * confidence);
    if nconf == numberTrials {
      nconf := numberTrials - 1;
    }
    assert nconf == QuantileIndex(numberTrials, confidence);
    if numberTrials > 0 {
      QuantileIndexInRange(numberTrials, confidence);
    }
    if nconf < 0 || nconf >= numberTrials {
      return Throw(BoundError);
    }
    return Ok(Estimate(centre, work[nconf], cl));
  }

  /** The resampling loop: column i of trials is the column the i-th draw picks. */
  method Resample(x: seq<Vec3>, dice: seq<int>) returns (trials: seq<Vec3>)
    requires DiceFit(dice, |x|)
    ensures trials == Trials(x, dice)
  {
    var nx := |x|;
    trials := [];
    var i := 0;
    while i < |dice|
      invariant 0 <= i <= |dice|
      invariant trials == Trials(x, dice)[..i]
    {
      var col := ArrayIndex(nx, dice[i]);
      trials := trials + [x[col]];
      i := i + 1;
    }
  }

  /** The median loop over the three rows, then the division by the medians' length. */
  method MedianCentre(num: Numerics, median: seq<real> -> real, trials: seq<Vec3>) returns (centre: Vec3)
    ensures centre == Centre(num, median, trials)
  {
    var med: seq<real> := [];
    var nrmmed := 0.0;
    var k := 0;
    while k < 3
      invariant 0 <= k <= 3 && |med| == k
      invariant forall j :: 0 <= j < k ==> med[j] == median(ComponentRow(trials, j))
      invariant nrmmed == SumOfSquares(med)
    {
      var work: seq<real> := [];
      var i := 0;
      while i < |trials|
        invariant 0 <= i <= |trials|
        invariant work == ComponentRow(trials, k)[..i]
      {
        work := work + [Component(trials[i], k)];
        i := i + 1;
      }
      assert work == ComponentRow(trials, k);
      assert (med + [median(work)])[..k] == med;
      med := med + [median(work)];
      nrmmed := nrmmed + med[k] * med[k];
      k := k + 1;
    }
    var m := Vec3(med[0], med[1], med[2]);
    assert m == MedianVector(median, trials);
    assert SumOfSquares(med[..1]) == med[0] * med[0] by {
      assert med[..1][..0] == [];
    }
    assert SumOfSquares(med[..2]) == med[0] * med[0] + med[1] * med[1] by {
      assert med[..2][..1] == med[..1];
    }
    assert SumOfSquares(med) == Dot(m, m) by {
      assert med[..|med| - 1] == med[..2];
    }
    nrmmed := num.sqrt(nrmmed);
    assert nrmmed == Norm(num, m);
    centre := Normalized(m, nrmmed);
  }

  /** The angle loop, filling the work vector in trial order. */
  method AngleList(num: Numerics, trials: seq<Vec3>, centre: Vec3) returns (work: array<real>)
    ensures fresh(work)
    ensures work[..] == Angles(num, trials, centre)
  {
    work := new real[|trials|];
    var i := 0;
    while i < |trials|
      invariant 0 <= i <= |trials|
      invariant work[..i] == Angles(num, trials, centre)[..i]
    {
      var dotprod := DotProduct(trials[i], centre);
      work[i] := num.acos(dotprod);
      i := i + 1;
    }
    assert work[..] == work[..|trials|];
  }

  /** nrmmed before its square root: the squares of the medians summed in order. */
  function SumOfSquares(s: seq<real>): real
  {
    if s == [] then 0.0 else SumOfSquares(s[..|s| - 1]) + s[|s| - 1] * s[|s| - 1]
  }

  /** The centre is a unit vector whenever the median vector is not zero and sqrt is exact. */
  lemma CentreIsUnit(num: Numerics, median: seq<real> -> real, t: seq<Vec3>)
    requires ExactNorm(num, MedianVector(median, t))
    requires Dot(MedianVector(median, t), MedianVector(median, t)) > 0.0
    ensures Dot(Centre(num, median, t), Centre(num, median, t)) == 1.0
  {
    NormalizedIsUnit(num, MedianVector(median, t));
  }

  /** The centre points along the median vector: scaling it back by the length recovers it. */
  lemma CentreAlongMedian(num: Numerics, median: seq<real> -> real, t: seq<Vec3>)
    requires Norm(num, MedianVector(median, t)) != 0.0
    ensures Scale(Norm(num, MedianVector(median, t)), Centre(num, median, t)) == MedianVector(median, t)
  {
  }

  /** The guard as written: only a position at or past the end is rejected. */
  predicate QuantileGuardAsWritten(trials: int, nconf: int)
  {
    nconf >= trials
  }

  /**
   * With no trials the position is rint(0) = 0, pulled back to -1, and the
   * guard as written lets it through to work[-1] on an empty vector.
   */
  lemma EmptyTrialsPassGuard(confidence: real)
    requires 0.0 < confidence <= 1.0
    ensures QuantileIndex(0, confidence) == -1
    ensures !QuantileGuardAsWritten(0, QuantileIndex(0, confidence))
  {
    assert Rint(0.0) == 0;
  }

  /** The state (i, k) of the trial-copy loop as written: the body steps i and never k. */
  datatype CopyState = CopyState(i: int, k: int)

  function CopyStepAsWritten(s: CopyState): CopyState
  {
    CopyState(s.i + 1, s.k)
  }

  function CopyStepsAsWritten(s: CopyState, n: nat): CopyState
  {
    if n == 0 then s else CopyStepAsWritten(CopyStepsAsWritten(s, n - 1))
  }

  /**
   * Entered with k = 0, the copy loop's guard k < 3 holds after every number
   * of steps while the column index trials(k, i) grows without bound: k
   * never advances, so the loop can leave only through an out-of-range
   * access of trials(0, i), whether that access throws or overruns the matrix.
   */
  lemma {:induction false} CopyLoopNeverAdvancesK(i0: int, n: nat)
    ensures CopyStepsAsWritten(CopyState(i0, 0), n) == CopyState(i0 + n, 0)
    ensures CopyStepsAsWritten(CopyState(i0, 0), n).k < 3
  {
    if n > 0 {
      CopyLoopNeverAdvancesK(i0, n - 1);
    }
  }
}

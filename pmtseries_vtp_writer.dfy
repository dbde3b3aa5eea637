/**
 * The PMTseriesToVTK writer: at one time t it draws, for every station's
 * particle-motion time series, the ellipse of the sample nearest t as a
 * closed, scaled polyline, and writes all of them as one VTK PolyData
 * document.  A station with no ellipse at t is drawn as a zero ellipse,
 * unless its header has no station name, in which case the warning that
 * names it throws and nothing is written.
 */
module PMTseriesVtpWriter {
  import opened Failures
  import opened Numerics
  import opened Geometry
  import opened TextTokens
  import opened ParticleMotionEllipse
  import opened PMTimeSeries
  import opened VtpPolyData
  import opened MetadataMaps

  // ---------------------------------------------------------------------
  // The figure of one ellipse

  /** The rows of an n x 3 matrix as points. */
  function RowPoint(a: array2<real>, i: int): Vec3
    requires a.Length1 == 3 && 0 <= i < a.Length0
    reads a
  {
    Vec3(a[i, 0], a[i, 1], a[i, 2])
  }

  function RowPoints(a: array2<real>): (pts: seq<Vec3>)
    requires a.Length1 == 3
    reads a
    ensures |pts| == a.Length0
    ensures forall i :: 0 <= i < a.Length0 ==> pts[i] == RowPoint(a, i)
  {
    seq(a.Length0, i requires 0 <= i < a.Length0 reads a => RowPoint(a, i))
  }

  /** The points of points(n): n points of the ellipse at equal phase steps. */
  function Outline(num: Numerics, e: Ellipse, n: nat): (pts: seq<Vec3>)
    ensures |pts| == n
    ensures forall k :: 0 <= k < n ==> pts[k] == NthPoint(num, e, n, k)
  {
    seq(n, k requires 0 <= k < n => NthPoint(num, e, n, k))
  }

  /** A figure closed by repeating its first point. */
  function Closed(pts: seq<Vec3>): seq<Vec3>
    requires |pts| >= 1
  {
    pts + [pts[0]]
  }

  /** Every point multiplied by s, as scale*pm does. */
  function ScaledAll(s: real, pts: seq<Vec3>): (q: seq<Vec3>)
    ensures |q| == |pts|
    ensures forall k :: 0 <= k < |pts| ==> q[k] == Scale(s, pts[k])
  {
    seq(|pts|, k requires 0 <= k < |pts| => Scale(s, pts[k]))
  }

  /** The curve drawn for ellipse e: np points, closed, and scaled. */
  function Figure(num: Numerics, e: Ellipse, np: int, scale: real): seq<Vec3>
    requires np >= 1
  {
    ScaledAll(scale, Closed(Outline(num, e, np)))
  }

  /**
   * The figure has np+1 points: the scaled ellipse points at phases
   * k * 2 pi / np, and last the first one again.
   */
  lemma FigureIsClosedOutline(num: Numerics, e: Ellipse, np: int, scale: real)
    requires np >= 1
    ensures |Figure(num, e, np, scale)| == np + 1
    ensures Figure(num, e, np, scale)[np] == Figure(num, e, np, scale)[0]
    ensures forall k :: 0 <= k < np ==> Figure(num, e, np, scale)[k] == Scale(scale, NthPoint(num, e, np, k))
  {
    var c := Closed(Outline(num, e, np));
    assert c[np] == c[0];
    assert forall k :: 0 <= k < np ==> c[k] == NthPoint(num, e, np, k);
  }

  /** The zero ellipse is drawn as np+1 copies of the origin. */
  lemma ZeroEllipseIsOrigin(num: Numerics, np: int, scale: real)
    requires np >= 1
    ensures forall k :: 0 <= k < |Figure(num, Zero(), np, scale)| ==> Figure(num, Zero(), np, scale)[k] == Origin
  {
    FigureIsClosedOutline(num, Zero(), np, scale);
  }

  // ---------------------------------------------------------------------
  // The station curves

  /** sample_number(t) of a series: the sample nearest t. */
  function SampleAt(v: PMValue, t: real, nint: real -> int): int
    requires v.dt != 0.0
  {
    nint((t - v.t0) / v.dt)
  }

  /**
   * The ellipse drawn for a station: the one at t's sample, or the zero
   * ellipse when ellipse(i) throws because t is outside its data.  The
   * handler of that throw names the station with get_string("sta"); with no
   * sta in the header the lookup throws, the outer handler repeats it, and
   * the MetadataGetError leaves the writer.
   */
  function EllipseDrawn(v: PMValue, t: real, nint: real -> int): (r: Result<Ellipse>)
    requires v.dt != 0.0
    ensures r.Ok? <==> 0 <= SampleAt(v, t, nint) < |v.pmdata| || GetString(v.md, "sta").Ok?
    ensures 0 <= SampleAt(v, t, nint) < |v.pmdata| ==> r == Ok(v.pmdata[SampleAt(v, t, nint)])
    ensures !(0 <= SampleAt(v, t, nint) < |v.pmdata|) && r.Ok? ==> r.value == Zero()
    ensures r.Err? ==> r == Throw(MetadataGetError)
  {
    var i := SampleAt(v, t, nint);
    if 0 <= i < |v.pmdata| then Ok(v.pmdata[i])
    else
      var sta := GetString(v.md, "sta");
      if sta.Err? then Err(sta.failure) else Ok(Zero())
  }

  predicate Sampled(vs: seq<PMValue>)
  {
    forall k :: 0 <= k < |vs| ==> vs[k].dt != 0.0
  }

  /** No station makes the writer throw: each has an ellipse at t or a name. */
  predicate Drawable(vs: seq<PMValue>, t: real, nint: real -> int)
    requires Sampled(vs)
  {
    forall k :: 0 <= k < |vs| ==> EllipseDrawn(vs[k], t, nint).Ok?
  }

  /** One curve per station, in input order. */
  function Figures(num: Numerics, vs: seq<PMValue>, t: real, scale: real, np: int, nint: real -> int): (cs: seq<seq<Vec3>>)
    requires np >= 1 && Sampled(vs) && Drawable(vs, t, nint)
    ensures |cs| == |vs|
    ensures forall k :: 0 <= k < |vs| ==> cs[k] == Figure(num, EllipseDrawn(vs[k], t, nint).value, np, scale)
  {
    seq(|vs|, k requires 0 <= k < |vs| => Figure(num, EllipseDrawn(vs[k], t, nint).value, np, scale))
  }

  lemma FiguresHaveClosedLength(num: Numerics, vs: seq<PMValue>, t: real, scale: real, np: int, nint: real -> int)
    requires np >= 1 && Sampled(vs) && Drawable(vs, t, nint)
    ensures forall k :: 0 <= k < |vs| ==> |Figures(num, vs, t, scale, np, nint)[k]| == np + 1
  {
    forall k | 0 <= k < |vs|
      ensures |Figures(num, vs, t, scale, np, nint)[k]| == np + 1
    {
      FigureIsClosedOutline(num, EllipseDrawn(vs[k], t, nint).value, np, scale);
    }
  }

  /**
   * The document the writer is meant to emit: every point of every figure
   * counted, numbered and delimited, and the norm range over all of them.
   */
  function EllipsesDocument(num: Numerics, show: DMatrix -> seq<Token>, vs: seq<PMValue>, t: real,
                            scale: real, np: int, nint: real -> int): seq<Token>
    requires np >= 1 && Sampled(vs) && Drawable(vs, t, nint)
  {
    FiguresHaveClosedLength(num, vs, t, scale, np, nint);
    CurvesDocument(num, show, Figures(num, vs, t, scale, np, nint))
  }

  lemma {:induction false} SumOfEqualCounts(counts: seq<nat>, c: nat)
    requires forall k :: 0 <= k < |counts| ==> counts[k] == c
    ensures Sum(counts) == c * |counts|
    decreases |counts|
  {
    if counts != [] {
      SumOfEqualCounts(counts[..|counts| - 1], c);
    }
  }

  /**
   * The header announces np+1 points per station and one line per
   * station, and the connectivity array numbers all of those points.
   */
  lemma EllipsesDocumentCounts(num: Numerics, show: DMatrix -> seq<Token>, vs: seq<PMValue>, t: real,
                               scale: real, np: int, nint: real -> int)
    requires np >= 1 && Sampled(vs) && Drawable(vs, t, nint)
    ensures var doc := EllipsesDocument(num, show, vs, t, scale, np, nint);
      && |doc| > 8
      && doc[5] == Int((np + 1) * |vs|)
      && doc[8] == Int(|vs|)
    ensures Ints(Connectivity(Counts(Figures(num, vs, t, scale, np, nint)), 0)) == Consecutive(0, (np + 1) * |vs|)
  {
    var curves := Figures(num, vs, t, scale, np, nint);
    var counts := Counts(curves);
    forall k | 0 <= k < |counts|
      ensures counts[k] == np + 1
    {
      FigureIsClosedOutline(num, EllipseDrawn(vs[k], t, nint).value, np, scale);
    }
    SumOfEqualCounts(counts, np + 1);
    PreambleCounts(counts, RangeOver(num, curves), PointsText(show, curves));
    ConnectivityNumbersPoints(counts, 0);
  }

  // ---------------------------------------------------------------------
  // The document as written

  /**
   * As written, a station's count is pm.columns(): the closed figure is an
   * (np+1) x 3 matrix, so every station counts 3 points in NumberOfPoints,
   * in the connectivity loop and in the offsets loop.
   */
  function CountsAsWritten(n: nat): (cs: seq<nat>)
    ensures |cs| == n
    ensures forall k :: 0 <= k < n ==> cs[k] == 3
  {
    seq(n, k => 3)
  }

  /** Component i (0, 1 or 2) of the first three points of a figure. */
  function ColumnHead(pts: seq<Vec3>, i: int): Vec3
    requires |pts| >= 3 && 0 <= i < 3
  {
    Vec3(Component(pts[0], i), Component(pts[1], i), Component(pts[2], i))
  }

  /**
   * The vectors whose norms the range loop takes as written:
   * dnrm2(3, pm.get_address(0, i), 1) on the column-major matrix reads the
   * first three entries of column i, for the columns i = 0, 1, 2.
   */
  function ColumnHeads(curves: seq<seq<Vec3>>): (hs: seq<seq<Vec3>>)
    requires forall k :: 0 <= k < |curves| ==> |curves[k]| >= 3
    ensures |hs| == |curves|
    ensures forall k :: 0 <= k < |curves| ==>
      hs[k] == [ColumnHead(curves[k], 0), ColumnHead(curves[k], 1), ColumnHead(curves[k], 2)]
  {
    seq(|curves|, k requires 0 <= k < |curves| =>
      [ColumnHead(curves[k], 0), ColumnHead(curves[k], 1), ColumnHead(curves[k], 2)])
  }

  /** The norm range as written: over the column heads, not the points. */
  function RangeAsWritten(num: Numerics, curves: seq<seq<Vec3>>): Range
    requires forall k :: 0 <= k < |curves| ==> |curves[k]| >= 3
  {
    RangeOver(num, ColumnHeads(curves))
  }

  /**
   * The document the writer emits: 3 points per station in the header, the
   * connectivity and the offsets, the offsets RangeMax left at 2 by the
   * connectivity loop, and the norm range of the column heads.  With np = 1
   * the figure has 2 rows and the last column head reads past the matrix,
   * so the document as written is stated for np >= 2.
   */
  function EllipsesDocumentAsWritten(num: Numerics, show: DMatrix -> seq<Token>, vs: seq<PMValue>, t: real,
                                     scale: real, np: int, nint: real -> int): seq<Token>
    requires np >= 2 && Sampled(vs) && Drawable(vs, t, nint)
  {
    FiguresHaveClosedLength(num, vs, t, scale, np, nint);
    var curves := Figures(num, vs, t, scale, np, nint);
    DocumentAsWritten(CountsAsWritten(|vs|), RangeAsWritten(num, curves), PointsText(show, curves))
  }

  /**
   * One station and np = 4: the figure has 5 points, all written, but the
   * document as written announces 3 points where the corrected document
   * announces 5.
   */
  lemma EllipsesDocumentAsWrittenDisagrees(num: Numerics, show: DMatrix -> seq<Token>, v: PMValue, t: real,
                                           scale: real, nint: real -> int)
    requires v.dt != 0.0 && EllipseDrawn(v, t, nint).Ok?
    ensures |Figures(num, [v], t, scale, 4, nint)[0]| == 5
    ensures EllipsesDocumentAsWritten(num, show, [v], t, scale, 4, nint)[5] == Int(3)
    ensures EllipsesDocument(num, show, [v], t, scale, 4, nint)[5] == Int(5)
  {
    FigureIsClosedOutline(num, EllipseDrawn(v, t, nint).value, 4, scale);
    EllipsesDocumentCounts(num, show, [v], t, scale, 4, nint);
    EllipsesDocumentAsWrittenCounts(num, show, [v], t, scale, 4, nint);
  }

  /** The as-written header announces three points and one line per station, whatever np is. */
  lemma EllipsesDocumentAsWrittenCounts(num: Numerics, show: DMatrix -> seq<Token>, vs: seq<PMValue>, t: real,
                                        scale: real, np: int, nint: real -> int)
    requires np >= 2 && Sampled(vs) && Drawable(vs, t, nint)
    ensures var doc := EllipsesDocumentAsWritten(num, show, vs, t, scale, np, nint);
      |doc| > 8 && doc[5] == Int(3 * |vs|) && doc[8] == Int(|vs|)
  {
    var curves := Figures(num, vs, t, scale, np, nint);
    var w := CountsAsWritten(|vs|);
    SumOfEqualCounts(w, 3);
    PreambleCountsAsWritten(w, RangeAsWritten(num, curves), PointsText(show, curves));
  }

  /** The header of the document as written counts the counts it is given. */
  lemma PreambleCountsAsWritten(counts: seq<nat>, r: Range, points: seq<Token>)
    ensures |DocumentAsWritten(counts, r, points)| > 8
    ensures DocumentAsWritten(counts, r, points)[5] == Int(Sum(counts))
    ensures DocumentAsWritten(counts, r, points)[8] == Int(|counts|)
  {
    var p := Preamble(Sum(counts), |counts|);
    var b := Body(counts, r, points, OffsetsAsWritten(counts));
    assert (p + b)[5] == p[5] && (p + b)[8] == p[8];
  }

  /**
   * The index arrays of one station with np = 4: as written the
   * connectivity is 0 1 2 and the line ends at offset 1 with RangeMax 2;
   * the five points need 0 .. 4 and the end 5.
   */
  lemma IndexArraysAsWrittenDisagree()
    ensures Ints(Connectivity(CountsAsWritten(1), 0)) == [0, 1, 2]
    ensures OffsetsAsWritten(CountsAsWritten(1)) == [1] && OffsetsRangeMax(CountsAsWritten(1)) == 2
    ensures Ints(Connectivity([5], 0)) == [0, 1, 2, 3, 4]
    ensures CellEnds([5]) == [5]
  {
    assert CountsAsWritten(1) == [3];
    IndexArraysOfOneStation(3, [0, 1, 2]);
    IndexArraysOfOneStation(5, [0, 1, 2, 3, 4]);
  }

  /**
   * One polyline of c points, listed as s = 0, 1, ..., c - 1: its connectivity
   * is s, its cell end is c, and the offsets as written are [1] with RangeMax c - 1.
   */
  lemma IndexArraysOfOneStation(c: nat, s: seq<int>)
    requires |s| == c && forall i :: 0 <= i < c ==> s[i] == i
    ensures Ints(Connectivity([c], 0)) == s
    ensures CellEnds([c]) == [c]
    ensures OffsetsAsWritten([c]) == [1] && OffsetsRangeMax([c]) == c - 1
  {
    assert [c][..0] == [];
    ConnectivityNumbersPoints([c], 0);
    assert Consecutive(0, c) == s;
  }

  /**
   * As written, the offsets advance by 3 per station: 1, 3, 6, 9, ...,
   * where station k's line ends at (np+1)(k+1).
   */
  lemma {:induction false} OffsetsAsWrittenStepByThree(n: nat)
    ensures forall k :: 0 <= k < n ==> OffsetsAsWritten(CountsAsWritten(n))[k] == if k == 0 then 1 else 3 * k
    decreases n
  {
    if n > 0 {
      var w := CountsAsWritten(n);
      assert w[..n - 1] == CountsAsWritten(n - 1);
      OffsetsAsWrittenStepByThree(n - 1);
      SumOfEqualCounts(CountsAsWritten(n - 1), 3);
    }
  }

  /**
   * A five-point figure whose later points reach farther than its first
   * three: with a sqrt exact at 0, 1 and 4, the range as written tops out
   * at 1 while the farthest point has norm 2.
   */
  lemma RangeAsWrittenMissesPoints(num: Numerics)
    requires num.sqrt(0.0) == 0.0 && num.sqrt(1.0) == 1.0 && num.sqrt(4.0) == 2.0
    ensures var curves := [[Vec3(1.0, 0.0, 0.0), Origin, Origin, Origin, Vec3(2.0, 0.0, 0.0)]];
      RangeAsWritten(num, curves).rmax == 1.0 && RangeOver(num, curves).rmax == 2.0
  {
    var pts: seq<Vec3> := [Vec3(1.0, 0.0, 0.0), Origin, Origin, Origin, Vec3(2.0, 0.0, 0.0)];
    var heads: seq<Vec3> := [Vec3(1.0, 0.0, 0.0), Origin, Origin];
    var hs: seq<seq<Vec3>> := [heads];
    var ps: seq<seq<Vec3>> := [pts];
    assert ColumnHead(pts, 0) == heads[0] && ColumnHead(pts, 1) == Origin && ColumnHead(pts, 2) == Origin;
    assert ColumnHeads([pts]) == [heads];
    assert hs[..0] == [] && ps[..0] == [];
    var r0 := Range(1.0, 0.0);
    var hn := Norms(num, heads);
    assert hn == [1.0, 0.0, 0.0];
    assert Tracked(r0, hn[..1]) == Range(1.0, 1.0) by { assert hn[..1][..0] == []; }
    assert Tracked(r0, hn[..2]) == Range(0.0, 1.0) by { assert hn[..2][..1] == hn[..1]; }
    assert Tracked(r0, hn) == Range(0.0, 1.0) by { assert hn[..2] == hn[..|hn| - 1]; }
    assert RangeOver(num, hs) == RangeStep(num, InitialRange, heads);
    var pn := Norms(num, pts);
    assert pn == [1.0, 0.0, 0.0, 0.0, 2.0];
    assert Tracked(r0, pn[..1]) == Range(1.0, 1.0) by { assert pn[..1][..0] == []; }
    assert Tracked(r0, pn[..2]) == Range(0.0, 1.0) by { assert pn[..2][..1] == pn[..1]; }
    assert Tracked(r0, pn[..3]) == Range(0.0, 1.0) by { assert pn[..3][..2] == pn[..2]; }
    assert Tracked(r0, pn[..4]) == Range(0.0, 1.0) by { assert pn[..4][..3] == pn[..3]; }
    assert Tracked(r0, pn) == Range(0.0, 2.0) by { assert pn[..4] == pn[..|pn| - 1]; }
    assert RangeOver(num, ps) == RangeStep(num, InitialRange, pts);
  }

  // ---------------------------------------------------------------------
  // The writer

  /** The n x 3 dmatrix points(n) returns. */
  method RowMatrix(rows: seq<Vec3>) returns (m: array2<real>)
    ensures fresh(m) && m.Length0 == |rows| && m.Length1 == 3
    ensures RowPoints(m) == rows
  {
    m := new real[|rows|, 3];
    for i := 0 to |rows|
      invariant forall q :: 0 <= q < i ==> RowPoint(m, q) == rows[q]
    {
      m[i, 0], m[i, 1], m[i, 2] := rows[i].x, rows[i].y, rows[i].z;
    }
  }

  /** close_ellipse: a copy of dm with one more row repeating row 0. */
  method CloseEllipse(dm: array2<real>) returns (result: array2<real>)
    requires dm.Length1 == 3 && dm.Length0 >= 1
    ensures fresh(result) && result.Length0 == dm.Length0 + 1 && result.Length1 == 3
    ensures RowPoints(result) == Closed(RowPoints(dm))
  {
    var nr := dm.Length0;
    result := new real[nr + 1, 3];
    for j := 0 to 3
      invariant forall c, q :: 0 <= c < j && 0 <= q < nr ==> result[q, c] == dm[q, c]
    {
      for i := 0 to nr
        invariant forall c, q :: 0 <= c < j && 0 <= q < nr ==> result[q, c] == dm[q, c]
        invariant forall q :: 0 <= q < i ==> result[q, j] == dm[q, j]
      {
        result[i, j] := dm[i, j];
      }
    }
    for j := 0 to 3
      invariant forall c, q :: 0 <= c < 3 && 0 <= q < nr ==> result[q, c] == dm[q, c]
      invariant forall c :: 0 <= c < j ==> result[nr, c] == dm[0, c]
    {
      result[nr, j] := dm[0, j];
    }
    assert forall q :: 0 <= q < nr ==> RowPoint(result, q) == RowPoint(dm, q);
  }

  /** pm = scale*pm, entry by entry. */
  method ScaleEntries(a: array2<real>, s: real)
    requires a.Length1 == 3
    modifies a
    ensures RowPoints(a) == ScaledAll(s, old(RowPoints(a)))
  {
    ghost var before := RowPoints(a);
    for i := 0 to a.Length0
      invariant forall q, c :: 0 <= q < i && 0 <= c < 3 ==> a[q, c] == s * old(a[q, c])
      invariant forall q, c :: i <= q < a.Length0 && 0 <= c < 3 ==> a[q, c] == old(a[q, c])
    {
      ScaleRow(a, i, s);
    }
    assert forall q :: 0 <= q < a.Length0 ==> before[q] == Vec3(old(a[q, 0]), old(a[q, 1]), old(a[q, 2]));
    assert forall q :: 0 <= q < a.Length0 ==> RowPoints(a)[q] == Scale(s, before[q]);
  }

  /** Row i of pm multiplied by s, the other rows untouched. */
  method ScaleRow(a: array2<real>, i: int, s: real)
    requires a.Length1 == 3 && 0 <= i < a.Length0
    modifies a
    ensures forall c :: 0 <= c < 3 ==> a[i, c] == s * old(a[i, c])
    ensures forall q, c :: 0 <= q < a.Length0 && q != i && 0 <= c < 3 ==> a[q, c] == old(a[q, c])
  {
    a[i, 0], a[i, 1], a[i, 2] := s * a[i, 0], s * a[i, 1], s * a[i, 2];
  }

  /**
   * The curve of one station, as the body of the writer's station loop
   * builds it, or the handler's throw for a station without a name.
   */
  method StationCurve(num: Numerics, v: PMValue, t: real, scale: real, np: int, nint: real -> int)
    returns (curve: Result<seq<Vec3>>)
    requires np >= 1 && v.dt != 0.0
    ensures curve.Err? <==> EllipseDrawn(v, t, nint).Err?
    ensures curve.Err? ==> curve.failure == EllipseDrawn(v, t, nint).failure
    ensures curve.Ok? ==> curve.value == Figure(num, EllipseDrawn(v, t, nint).value, np, scale)
  {
    var i := nint((t - v.t0) / v.dt);
    var pme := Zero();
    var found := EllipseOf(v, i);
    if found.Ok? {
      pme := found.value;
    } else {
      var sta := GetString(v.md, "sta");
      if sta.Err? {
        return Err(sta.failure);
      }
    }
    assert Ok(pme) == EllipseDrawn(v, t, nint);
    var rows := Points(num, pme, np);
    assert rows == Outline(num, pme, np);
    var dm := RowMatrix(rows);
    var pm := CloseEllipse(dm);
    assert RowPoints(pm) == Closed(rows);
    ScaleEntries(pm, scale);
    curve := Ok(RowPoints(pm));
  }

  /** The first |curves| stations all have an ellipse at t, and curves holds their figures. */
  predicate FiguresPrefix(num: Numerics, vs: seq<PMValue>, t: real, scale: real, np: int, nint: real -> int,
                          curves: seq<seq<Vec3>>)
    requires np >= 1 && Sampled(vs)
  {
    && |curves| <= |vs|
    && (forall j :: 0 <= j < |curves| ==> EllipseDrawn(vs[j], t, nint).Ok?)
    && (forall j :: 0 <= j < |curves| ==> curves[j] == Figure(num, EllipseDrawn(vs[j], t, nint).value, np, scale))
  }

  lemma FiguresPrefixExtend(num: Numerics, vs: seq<PMValue>, t: real, scale: real, np: int, nint: real -> int,
                            curves: seq<seq<Vec3>>)
    requires np >= 1 && Sampled(vs) && FiguresPrefix(num, vs, t, scale, np, nint, curves)
    requires |curves| < |vs| && EllipseDrawn(vs[|curves|], t, nint).Ok?
    ensures FiguresPrefix(num, vs, t, scale, np, nint,
                          curves + [Figure(num, EllipseDrawn(vs[|curves|], t, nint).value, np, scale)])
  {
  }

  lemma FiguresPrefixComplete(num: Numerics, vs: seq<PMValue>, t: real, scale: real, np: int, nint: real -> int,
                              curves: seq<seq<Vec3>>)
    requires np >= 1 && Sampled(vs) && FiguresPrefix(num, vs, t, scale, np, nint, curves) && |curves| == |vs|
    ensures Drawable(vs, t, nint) && curves == Figures(num, vs, t, scale, np, nint)
  {
  }

  /**
   * WriteEllipses: the curve of every station at time t, with the point
   * count of each curve taken as its number of rows and the norm range
   * taken over every point; it throws, writing nothing, when a station
   * without a name has no ellipse at t.
   */
  method WriteEllipses(num: Numerics, show: DMatrix -> seq<Token>, d: seq<PMValue>, t: real,
                       scale: real, np: int, nint: real -> int) returns (out: Result<seq<Token>>)
    requires np >= 1 && Sampled(d)
    ensures out.Ok? <==> Drawable(d, t, nint)
    ensures out.Err? ==> out == Throw(MetadataGetError)
    ensures out.Ok? ==> out.value == EllipsesDocument(num, show, d, t, scale, np, nint)
  {
    ghost var curves: seq<seq<Vec3>> := [];
    var counts: seq<nat> := [];
    var text: seq<Token> := [];
    var rmin, rmax := -1.0, 0.0;
    var k := 0;
    while k < |d|
      invariant 0 <= k <= |d|
      invariant |curves| == k
      invariant FiguresPrefix(num, d, t, scale, np, nint, curves)
      invariant Drawn(num, show, curves, counts, text, Range(rmin, rmax))
    {
      var curve := StationCurve(num, d[k], t, scale, np, nint);
      if curve.Err? {
        return Err(curve.failure);
      }
      FigureIsClosedOutline(num, EllipseDrawn(d[k], t, nint).value, np, scale);
      counts, text, rmin, rmax := AddCurve(num, show, curves, counts, text, rmin, rmax, curve.value, RowsOf(curve.value));
      FiguresPrefixExtend(num, d, t, scale, np, nint, curves);
      curves := curves + [curve.value];
      k := k + 1;
    }
    FiguresPrefixComplete(num, d, t, scale, np, nint, curves);
    var doc := WriteDocument(counts, Range(rmin, rmax), text);
    out := Ok(doc);
  }
}

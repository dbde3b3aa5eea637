/**
 * The VTK XML PolyData document both particle-motion writers emit: a
 * header with the point and line counts, the points with their norm
 * range, the connectivity array numbering every point, and the offsets
 * array delimiting each line.  The writers differ only in how they obtain
 * the curves, so the document, the range tracking and the two index
 * arrays are defined once here.
 */
module VtpPolyData {
  import opened Numerics
  import opened Geometry
  import opened TextTokens

  // ---------------------------------------------------------------------
  // Matrices

  /** A dmatrix, kept as its rows. */
  datatype DMatrix = DMatrix(rows: seq<seq<real>>, ncols: nat)

  /** Every row holds ncols entries. */
  predicate Shaped(m: DMatrix)
  {
    forall i :: 0 <= i < |m.rows| ==> |m.rows[i]| == m.ncols
  }

  function Row(v: Vec3): seq<real> { [v.x, v.y, v.z] }

  /** An n x 3 matrix with one point per row. */
  function RowsOf(pts: seq<Vec3>): (m: DMatrix)
    ensures Shaped(m) && |m.rows| == |pts| && m.ncols == 3
    ensures forall i :: 0 <= i < |pts| ==> m.rows[i] == Row(pts[i])
  {
    DMatrix(seq(|pts|, i requires 0 <= i < |pts| => Row(pts[i])), 3)
  }

  /** A 3 x n matrix with one point per column. */
  function ColumnsOf(pts: seq<Vec3>): (m: DMatrix)
    ensures Shaped(m) && |m.rows| == 3 && m.ncols == |pts|
    ensures forall j :: 0 <= j < |pts| ==>
      m.rows[0][j] == pts[j].x && m.rows[1][j] == pts[j].y && m.rows[2][j] == pts[j].z
  {
    DMatrix([seq(|pts|, j requires 0 <= j < |pts| => pts[j].x),
             seq(|pts|, j requires 0 <= j < |pts| => pts[j].y),
             seq(|pts|, j requires 0 <= j < |pts| => pts[j].z)], |pts|)
  }

  /** tr(m). */
  function Transposed(m: DMatrix): (t: DMatrix)
    requires Shaped(m)
    ensures Shaped(t) && |t.rows| == m.ncols && t.ncols == |m.rows|
    ensures forall i, j :: 0 <= i < m.ncols && 0 <= j < |m.rows| ==> t.rows[i][j] == m.rows[j][i]
  {
    DMatrix(seq(m.ncols, i requires 0 <= i < m.ncols =>
              seq(|m.rows|, j requires 0 <= j < |m.rows| => m.rows[j][i])), |m.rows|)
  }

  /** Transposing a matrix of point columns gives the matrix of point rows. */
  lemma TransposedColumnsAreRows(pts: seq<Vec3>)
    ensures Transposed(ColumnsOf(pts)) == RowsOf(pts)
  {
    var t := Transposed(ColumnsOf(pts));
    var r := RowsOf(pts);
    forall i | 0 <= i < |pts|
      ensures t.rows[i] == r.rows[i]
    {
      assert t.rows[i] == [pts[i].x, pts[i].y, pts[i].z];
    }
  }

  /** The point stored in column j of a 3 x n matrix. */
  function ColumnPoint(m: DMatrix, j: int): Vec3
    requires Shaped(m) && |m.rows| >= 3 && 0 <= j < m.ncols
  {
    Vec3(m.rows[0][j], m.rows[1][j], m.rows[2][j])
  }

  lemma ColumnPointsOfColumnsOf(pts: seq<Vec3>)
    ensures forall j :: 0 <= j < |pts| ==> ColumnPoint(ColumnsOf(pts), j) == pts[j]
  {
  }

  // ---------------------------------------------------------------------
  // Norm range of the points

  /** The running RangeMin and RangeMax; rmin is negative until the first curve is seen. */
  datatype Range = Range(rmin: real, rmax: real)

  const InitialRange: Range := Range(-1.0, 0.0)

  /** The inner loop over one curve: each norm may lower rmin and raise rmax. */
  function Tracked(r: Range, norms: seq<real>): Range
  {
    if norms == [] then r
    else
      var p := Tracked(r, norms[..|norms| - 1]);
      var d := norms[|norms| - 1];
      Range(if d < p.rmin then d else p.rmin, if d > p.rmax then d else p.rmax)
  }

  /** The norms dnrm2 computes for the points of a curve. */
  function Norms(num: Numerics, pts: seq<Vec3>): (ns: seq<real>)
    ensures |ns| == |pts|
    ensures forall j :: 0 <= j < |pts| ==> ns[j] == Norm(num, pts[j])
  {
    seq(|pts|, j requires 0 <= j < |pts| => Norm(num, pts[j]))
  }

  /**
   * One curve's update: a negative rmin is first replaced by the norm of
   * the curve's first point, then every point is tracked.
   */
  function RangeStep(num: Numerics, r: Range, pts: seq<Vec3>): Range
    requires r.rmin < 0.0 ==> |pts| >= 1
  {
    var r0 := if r.rmin < 0.0 then r.(rmin := Norm(num, pts[0])) else r;
    Tracked(r0, Norms(num, pts))
  }

  /** The range after a run of curves, each of at least one point. */
  function RangeOver(num: Numerics, curves: seq<seq<Vec3>>): Range
    requires forall k :: 0 <= k < |curves| ==> |curves[k]| >= 1
  {
    if curves == [] then InitialRange
    else RangeStep(num, RangeOver(num, curves[..|curves| - 1]), curves[|curves| - 1])
  }

  /** dnrm2 returns no negative value for the points of the curves. */
  predicate NonNegativeNorms(num: Numerics, curves: seq<seq<Vec3>>)
  {
    forall k, j :: 0 <= k < |curves| && 0 <= j < |curves[k]| ==> Norm(num, curves[k][j]) >= 0.0
  }

  lemma {:induction false} TrackedBounds(r: Range, norms: seq<real>)
    ensures Tracked(r, norms).rmin <= r.rmin && Tracked(r, norms).rmax >= r.rmax
    ensures forall k :: 0 <= k < |norms| ==>
      Tracked(r, norms).rmin <= norms[k] <= Tracked(r, norms).rmax
    ensures r.rmin >= 0.0 && (forall k :: 0 <= k < |norms| ==> norms[k] >= 0.0) ==>
      Tracked(r, norms).rmin >= 0.0
    decreases |norms|
  {
    if norms != [] {
      TrackedBounds(r, norms[..|norms| - 1]);
    }
  }

  /**
   * With non-negative norms, RangeMin and RangeMax bound the norm of every
   * point of every curve, and RangeMin is no longer negative once a curve
   * has been seen.
   */
  lemma {:induction false} RangeBoundsAllPoints(num: Numerics, curves: seq<seq<Vec3>>)
    requires NonNegativeNorms(num, curves)
    requires forall k :: 0 <= k < |curves| ==> |curves[k]| >= 1
    ensures curves != [] ==> RangeOver(num, curves).rmin >= 0.0
    ensures forall k, j :: 0 <= k < |curves| && 0 <= j < |curves[k]| ==>
      RangeOver(num, curves).rmin <= Norm(num, curves[k][j]) <= RangeOver(num, curves).rmax
    decreases |curves|
  {
    if curves != [] {
      var n := |curves|;
      var init := curves[..n - 1];
      var pts := curves[n - 1];
      var prior := RangeOver(num, init);
      var r0 := if prior.rmin < 0.0 then prior.(rmin := Norm(num, pts[0])) else prior;
      assert NonNegativeNorms(num, init) by {
        forall k, j | 0 <= k < |init| && 0 <= j < |init[k]|
          ensures Norm(num, init[k][j]) >= 0.0
        {
          assert init[k] == curves[k];
        }
      }
      RangeBoundsAllPoints(num, init);
      assert prior.rmin < 0.0 ==> init == [];
      assert r0.rmin >= 0.0 by {
        if prior.rmin < 0.0 {
          assert Norm(num, curves[n - 1][0]) >= 0.0;
        }
      }
      forall j | 0 <= j < |pts|
        ensures Norms(num, pts)[j] >= 0.0
      {
        assert Norm(num, curves[n - 1][j]) >= 0.0;
      }
      TrackedBounds(r0, Norms(num, pts));
      forall k, j | 0 <= k < n && 0 <= j < |curves[k]|
        ensures RangeOver(num, curves).rmin <= Norm(num, curves[k][j]) <= RangeOver(num, curves).rmax
      {
        if k < n - 1 {
          assert curves[k] == init[k];
        } else {
          assert Norms(num, pts)[j] == Norm(num, curves[k][j]);
        }
      }
    }
  }

  /** The update of the range for one curve, as the writers' loops perform it. */
  method TrackRange(num: Numerics, pts: seq<Vec3>, rmin: real, rmax: real) returns (lo: real, hi: real)
    requires rmin < 0.0 ==> |pts| >= 1
    ensures Range(lo, hi) == RangeStep(num, Range(rmin, rmax), pts)
  {
    lo, hi := rmin, rmax;
    if lo < 0.0 {
      lo := Norm(num, pts[0]);
    }
    ghost var r0 := Range(lo, hi);
    var i := 0;
    while i < |pts|
      invariant 0 <= i <= |pts|
      invariant Range(lo, hi) == Tracked(r0, Norms(num, pts)[..i])
    {
      var d := Norm(num, pts[i]);
      assert Norms(num, pts)[..i + 1][..i] == Norms(num, pts)[..i];
      if d > hi {
        hi := d;
      }
      if d < lo {
        lo := d;
      }
      i := i + 1;
    }
    assert Norms(num, pts)[..|pts|] == Norms(num, pts);
  }

  // ---------------------------------------------------------------------
  // Counts, connectivity and offsets

  function Sum(counts: seq<nat>): nat
  {
    if counts == [] then 0 else Sum(counts[..|counts| - 1]) + counts[|counts| - 1]
  }

  /** The point count of each curve. */
  function Counts(curves: seq<seq<Vec3>>): (cs: seq<nat>)
    ensures |cs| == |curves|
    ensures forall k :: 0 <= k < |curves| ==> cs[k] == |curves[k]|
  {
    seq(|curves|, k requires 0 <= k < |curves| => |curves[k]|)
  }

  /** The integers of a token stream, in order. */
  function Ints(ts: seq<Token>): seq<int>
  {
    if ts == [] then []
    else Ints(ts[..|ts| - 1]) + (if ts[|ts| - 1].Int? then [ts[|ts| - 1].n] else [])
  }

  lemma {:induction false} IntsAppend(a: seq<Token>, b: seq<Token>)
    ensures Ints(a + b) == Ints(a) + Ints(b)
    decreases |b|
  {
    if b == [] {
      assert a + b == a;
    } else {
      assert (a + b)[..|a + b| - 1] == a + b[..|b| - 1];
      IntsAppend(a, b[..|b| - 1]);
    }
  }

  lemma IntsOfPair(a: Token, b: Token)
    ensures Ints([a, b]) == Ints([a]) + Ints([b])
  {
    assert [a, b][..1] == [a];
  }

  lemma IntsOfOne(t: Token)
    ensures Ints([t]) == (if t.Int? then [t.n] else [])
  {
    assert [t][..0] == [];
  }

  /** The integers start, start+1, ..., start+n-1. */
  function Consecutive(start: int, n: nat): (r: seq<int>)
    ensures |r| == n
  {
    seq(n, i requires 0 <= i < n => start + i)
  }

  /**
   * The connectivity entries of one curve of c points numbered from start:
   * each index and a blank, with a line break after every tenth entry.
   */
  function CurveIndices(start: int, c: nat): seq<Token>
  {
    if c == 0 then [] else CurveIndices(start, c - 1) + IndexEntry(start + c - 1, c)
  }

  /** The c-th entry of a curve: its index and a blank, and a line break when c is a multiple of ten. */
  function IndexEntry(index: int, c: nat): seq<Token>
  {
    [Int(index), Text(" ")] + (if c % 10 == 0 then [Endl] else [])
  }

  lemma IndexEntryInts(index: int, c: nat)
    ensures Ints(IndexEntry(index, c)) == [index]
  {
    var nl: seq<Token> := if c % 10 == 0 then [Endl] else [];
    IntsAppend([Int(index), Text(" ")], nl);
    IntsOfPair(Int(index), Text(" "));
    IntsOfOne(Int(index));
    IntsOfOne(Text(" "));
    if c % 10 == 0 {
      IntsOfOne(Endl);
    }
  }

  lemma ConsecutiveAppend(start: int, a: nat, b: nat)
    ensures Consecutive(start, a) + Consecutive(start + a, b) == Consecutive(start, a + b)
  {
  }

  /** The connectivity entries of all curves, numbered from start. */
  function Connectivity(counts: seq<nat>, start: int): seq<Token>
  {
    if counts == [] then []
    else
      var init := counts[..|counts| - 1];
      Connectivity(init, start) + CurveIndices(start + Sum(init), counts[|counts| - 1])
  }

  lemma {:induction false} CurveIndicesNumbers(start: int, c: nat)
    ensures Ints(CurveIndices(start, c)) == Consecutive(start, c)
    decreases c
  {
    if c > 0 {
      CurveIndicesNumbers(start, c - 1);
      IntsAppend(CurveIndices(start, c - 1), IndexEntry(start + c - 1, c));
      IndexEntryInts(start + c - 1, c);
      ConsecutiveAppend(start, c - 1, 1);
    }
  }

  /** The connectivity array numbers the points start, start+1, ... in order. */
  lemma {:induction false} ConnectivityNumbersPoints(counts: seq<nat>, start: int)
    ensures Ints(Connectivity(counts, start)) == Consecutive(start, Sum(counts))
    decreases |counts|
  {
    if counts != [] {
      var init := counts[..|counts| - 1];
      var c := counts[|counts| - 1];
      var head := Connectivity(init, start);
      var last := CurveIndices(start + Sum(init), c);
      assert Connectivity(counts, start) == head + last;
      assert Sum(counts) == Sum(init) + c;
      ConnectivityNumbersPoints(init, start);
      IntsAppend(head, last);
      CurveIndicesNumbers(start + Sum(init), c);
      ConsecutiveAppend(start, Sum(init), c);

    }
  }

  /** The offsets as written: the first is 1, later ones are the count of preceding points. */
  function OffsetsAsWritten(counts: seq<nat>): (os: seq<int>)
    ensures |os| == |counts|
  {
    if counts == [] then []
    else
      var prior := Sum(counts[..|counts| - 1]);
      OffsetsAsWritten(counts[..|counts| - 1]) + [if prior == 0 then 1 else prior]
  }

  /** The offsets VTK expects: the end position of each line in the connectivity array. */
  function CellEnds(counts: seq<nat>): (os: seq<int>)
    ensures |os| == |counts|
  {
    if counts == [] then []
    else CellEnds(counts[..|counts| - 1]) + [Sum(counts)]
  }

  lemma {:induction false} CellEndsArePrefixSums(counts: seq<nat>, k: nat)
    requires k < |counts|
    ensures CellEnds(counts)[k] == Sum(counts[..k + 1])
    decreases |counts|
  {
    if k + 1 < |counts| {
      var init := counts[..|counts| - 1];
      CellEndsArePrefixSums(init, k);
      assert init[..k + 1] == counts[..k + 1];
    } else {
      assert counts[..k + 1] == counts;
    }
  }

  lemma {:induction false} SumPrefixMonotone(counts: seq<nat>, i: nat, j: nat)
    requires i <= j <= |counts|
    ensures Sum(counts[..i]) <= Sum(counts[..j])
    decreases j - i
  {
    if i < j {
      SumPrefixMonotone(counts, i, j - 1);
      assert counts[..j][..j - 1] == counts[..j - 1];
    }
  }

  /**
   * With cell ends as offsets, line k covers exactly the connectivity
   * entries of curve k: counts[k] entries, numbered from the number of
   * points before it.
   */
  lemma CellEndsDelimitCurves(counts: seq<nat>, k: nat)
    requires k < |counts|
    ensures var lo := if k == 0 then 0 else CellEnds(counts)[k - 1];
      && 0 <= lo <= CellEnds(counts)[k] <= |Ints(Connectivity(counts, 0))|
      && CellEnds(counts)[k] - lo == counts[k]
      && Ints(Connectivity(counts, 0))[lo..CellEnds(counts)[k]] == Consecutive(Sum(counts[..k]), counts[k])
  {
    var lo := if k == 0 then 0 else CellEnds(counts)[k - 1];
    var hi := CellEnds(counts)[k];
    CellEndBounds(counts, k);
    ConnectivityNumbersPoints(counts, 0);
    var all := Consecutive(0, Sum(counts));
    assert all[lo..hi] == Consecutive(lo, hi - lo);
  }

  lemma CellEndBounds(counts: seq<nat>, k: nat)
    requires k < |counts|
    ensures (if k == 0 then 0 else CellEnds(counts)[k - 1]) == Sum(counts[..k])
    ensures CellEnds(counts)[k] == Sum(counts[..k]) + counts[k]
    ensures CellEnds(counts)[k] <= Sum(counts)
  {
    CellEndsArePrefixSums(counts, k);
    if k > 0 {
      CellEndsArePrefixSums(counts, k - 1);
    } else {
      assert counts[..0] == [];
    }
    assert counts[..k + 1][..k] == counts[..k];
    SumPrefixMonotone(counts, k + 1, |counts|);
    assert counts[..|counts|] == counts;
  }

  /**
   * As written, the first line of a file with two four-point curves would
   * end at entry 1, and the second would start there.
   */
  lemma OffsetsAsWrittenMisplaceLines()
    ensures OffsetsAsWritten([4, 4]) == [1, 4]
    ensures CellEnds([4, 4]) == [4, 8]
  {
    var counts: seq<nat> := [4, 4];
    assert counts[..1] == [4];
    assert counts[..1][..0] == [];
    assert Sum([4]) == 4;
  }

  /** Each offset on a line of its own. */
  function OffsetLines(os: seq<int>): seq<Token>
  {
    if os == [] then [] else OffsetLines(os[..|os| - 1]) + [Int(os[|os| - 1]), Endl]
  }

  lemma {:induction false} OffsetLinesValues(os: seq<int>)
    ensures Ints(OffsetLines(os)) == os
    decreases |os|
  {
    if os != [] {
      var v := os[|os| - 1];
      OffsetLinesValues(os[..|os| - 1]);
      IntsAppend(OffsetLines(os[..|os| - 1]), [Int(v), Endl]);
      IntsOfPair(Int(v), Endl);
      IntsOfOne(Int(v));
      IntsOfOne(Endl);
    }
  }

  /** The inner connectivity loop: the c points of one curve, numbered from index. */
  method WriteCurveIndices(index: int, c: nat) returns (out: seq<Token>)
    ensures out == CurveIndices(index, c)
  {
    out := [];
    var i := 0;
    while i < c
      invariant 0 <= i <= c
      invariant out == CurveIndices(index, i)
    {
      out := out + [Int(index + i), Text(" ")];
      if (i + 1) % 10 == 0 {
        out := out + [Endl];
      }
      i := i + 1;
    }
  }

  /** The connectivity loop of the writers. */
  method WriteConnectivity(counts: seq<nat>) returns (out: seq<Token>)
    ensures out == Connectivity(counts, 0)
  {
    out := [];
    var index := 0;
    var k := 0;
    while k < |counts|
      invariant 0 <= k <= |counts|
      invariant index == Sum(counts[..k])
      invariant out == Connectivity(counts[..k], 0)
    {
      var entries := WriteCurveIndices(index, counts[k]);
      out := out + entries;
      index := index + counts[k];
      assert counts[..k + 1][..k] == counts[..k];
      k := k + 1;
    }
    assert counts[..|counts|] == counts;
  }

  /** The offsets loop of the writers, with line ends as VTK defines them. */
  method WriteOffsets(counts: seq<nat>) returns (out: seq<Token>)
    ensures out == OffsetLines(CellEnds(counts))
  {
    out := [];
    var index := 0;
    var k := 0;
    while k < |counts|
      invariant 0 <= k <= |counts|
      invariant index == Sum(counts[..k])
      invariant out == OffsetLines(CellEnds(counts[..k]))
    {
      index := index + counts[k];
      assert counts[..k + 1][..k] == counts[..k];
      out := out + [Int(index), Endl];
      k := k + 1;
    }
    assert counts[..|counts|] == counts;
  }

  // ---------------------------------------------------------------------
  // The document

  // The fixed text of the document.
  const VTKFileTag: string := "<VTKFile type=\"PolyData\" version=\"0.1\" byte_order=\"LittleEndian\">"
  const PolyDataTag: string := "<PolyData>"
  const PieceTag: string := "<Piece NumberOfPoints=\""
  const LinesAttr: string := "NumberOfVerts=\"0\" NumberOfLines=\""
  const AttrEnd: string := "\" "
  const PieceEnd: string := "NumberOfStrips=\"0\" NumberOfPolys=\"0\">"
  const PointDataTag: string := "<PointData>\n</PointData>"
  const CellDataTag: string := "<CellData>\n</CellData>"
  const PointsTag: string := "<Points>"
  const PointsArrayTag: string := "<DataArray type=\"Float32\" Name=\"Points\""
  const ComponentsAttr: string := " NumberOfComponents=\"3\" format=\"ascii\""
  const RealRangeMin: string := " RangeMin=\""
  const RealRangeMax: string := "\" RangeMax=\""
  const TagEnd: string := "\">"
  const IndexArrayTag: string := "<DataArray type=\"Int64\" Name=\""
  const AsciiAttr: string := "format=\"ascii\" "
  const IndexRangeMin: string := "RangeMin=\""
  const DataArrayEnd: string := "</DataArray>"
  const PointsEnd: string := "</Points>"
  const LinesTag: string := "<Lines>"
  const LinesEnd: string := "</Lines>"
  const PieceClose: string := "</Piece>"
  const PolyDataEnd: string := "</PolyData>"
  const VTKFileEnd: string := "</VTKFile>"

  /** The VTKFile, PolyData and Piece opening lines with the two counts. */
  function Preamble(total: int, ncurves: int): (p: seq<Token>)
    ensures |p| == 18 && p[5] == Int(total) && p[8] == Int(ncurves)
  {
    [Text(VTKFileTag), Endl,
     Text(PolyDataTag), Endl,
     Text(PieceTag), Int(total), Text(AttrEnd),
     Text(LinesAttr), Int(ncurves), Text(AttrEnd),
     Text(PieceEnd), Endl,
     Text(PointDataTag), Endl,
     Text(CellDataTag), Endl,
     Text(PointsTag), Endl]
  }

  function PointsHeader(r: Range): seq<Token>
  {
    [Text(PointsArrayTag),
     Text(ComponentsAttr),
     Text(RealRangeMin), Real(r.rmin), Text(RealRangeMax), Real(r.rmax), Text(TagEnd), Endl]
  }

  const ConnectivityName: string := "connectivity"
  const OffsetsName: string := "offsets"

  function IndexArrayHeader(name: string, hi: int): seq<Token>
  {
    [Text(IndexArrayTag + name + AttrEnd), Text(AsciiAttr),
     Text(IndexRangeMin), Int(0), Text(RealRangeMax), Int(hi), Text(TagEnd), Endl]
  }

  /**
   * The RangeMax the offsets header carries: the connectivity loop leaves
   * indexmax at the last curve's count minus one (indexmin stays 0).
   */
  function OffsetsRangeMax(counts: seq<nat>): int
  {
    if counts == [] then -1 else counts[|counts| - 1] as int - 1
  }

  /** The Points data array: each curve as an n x 3 matrix, one point per row,
   * as operator<< prints it. */
  function PointsText(show: DMatrix -> seq<Token>, curves: seq<seq<Vec3>>): seq<Token>
  {
    if curves == [] then []
    else PointsText(show, curves[..|curves| - 1]) + show(RowsOf(curves[|curves| - 1]))
  }

  /** Adding one curve extends the counts, the points text and the range by that curve. */
  lemma CurvesAppend(num: Numerics, show: DMatrix -> seq<Token>, curves: seq<seq<Vec3>>, curve: seq<Vec3>)
    requires forall k :: 0 <= k < |curves| ==> |curves[k]| >= 1
    requires |curve| >= 1
    ensures Counts(curves + [curve]) == Counts(curves) + [|curve|]
    ensures PointsText(show, curves + [curve]) == PointsText(show, curves) + show(RowsOf(curve))
    ensures RangeOver(num, curves + [curve]) == RangeStep(num, RangeOver(num, curves), curve)
  {
    assert (curves + [curve])[..|curves|] == curves;
  }

  /** The counts, points text and range written so far describe the curves drawn so far. */
  predicate Drawn(num: Numerics, show: DMatrix -> seq<Token>, curves: seq<seq<Vec3>>,
                  counts: seq<nat>, text: seq<Token>, r: Range)
  {
    && (forall k :: 0 <= k < |curves| ==> |curves[k]| >= 1)
    && counts == Counts(curves)
    && text == PointsText(show, curves)
    && r == RangeOver(num, curves)
  }

  /**
   * One curve drawn, as the body of both writers' curve loops: its rows
   * printed, its point count recorded and its norms tracked.
   */
  method AddCurve(num: Numerics, show: DMatrix -> seq<Token>, ghost curves: seq<seq<Vec3>>,
                  counts: seq<nat>, text: seq<Token>, rmin: real, rmax: real, curve: seq<Vec3>, m: DMatrix)
    returns (counts': seq<nat>, text': seq<Token>, rmin': real, rmax': real)
    requires Drawn(num, show, curves, counts, text, Range(rmin, rmax))
    requires |curve| >= 1 && m == RowsOf(curve)
    ensures Drawn(num, show, curves + [curve], counts', text', Range(rmin', rmax'))
  {
    CurvesAppend(num, show, curves, curve);
    text' := text + show(m);
    counts' := counts + [|curve|];
    rmin', rmax' := TrackRange(num, curve, rmin, rmax);
  }

  /** The document drawing the given curves, each of at least one point. */
  function CurvesDocument(num: Numerics, show: DMatrix -> seq<Token>, curves: seq<seq<Vec3>>): seq<Token>
    requires forall k :: 0 <= k < |curves| ==> |curves[k]| >= 1
  {
    Document(Counts(curves), RangeOver(num, curves), PointsText(show, curves))
  }

  /**
   * The whole document for curves with the given point counts, norm
   * range and points text.
   */
  function Document(counts: seq<nat>, r: Range, points: seq<Token>): seq<Token>
  {
    Preamble(Sum(counts), |counts|) + Body(counts, r, points, CellEnds(counts))
  }

  /**
   * The document with the offsets as the loops write them: the first 1,
   * later ones the count of preceding points.
   */
  function DocumentAsWritten(counts: seq<nat>, r: Range, points: seq<Token>): seq<Token>
  {
    Preamble(Sum(counts), |counts|) + Body(counts, r, points, OffsetsAsWritten(counts))
  }

  /** Everything after the preamble, with the given offsets. */
  function Body(counts: seq<nat>, r: Range, points: seq<Token>, offsets: seq<int>): seq<Token>
  {
    PointsHeader(r) + points
    + [Text(DataArrayEnd), Endl, Text(PointsEnd), Endl, Text(LinesTag), Endl]
    + IndexArrayHeader(ConnectivityName, Sum(counts) as int - 1)
    + Connectivity(counts, 0)
    + [Endl, Text(DataArrayEnd), Endl]
    + IndexArrayHeader(OffsetsName, OffsetsRangeMax(counts))
    + OffsetLines(offsets)
    + [Text(DataArrayEnd), Endl, Text(LinesEnd), Endl,
       Text(PieceClose), Endl, Text(PolyDataEnd), Endl, Text(VTKFileEnd), Endl]
  }

  /** The header's NumberOfPoints and NumberOfLines are the point total and the curve count. */
  lemma PreambleCounts(counts: seq<nat>, r: Range, points: seq<Token>)
    ensures |Document(counts, r, points)| > 8
    ensures Document(counts, r, points)[5] == Int(Sum(counts))
    ensures Document(counts, r, points)[8] == Int(|counts|)
  {
    var p := Preamble(Sum(counts), |counts|);
    var b := Body(counts, r, points, CellEnds(counts));
    assert (p + b)[5] == p[5] && (p + b)[8] == p[8];
  }

  /** The loop that adds up the point counts before the header is written. */
  method PointTotal(counts: seq<nat>) returns (total: int)
    ensures total == Sum(counts)
  {
    total := 0;
    var k := 0;
    while k < |counts|
      invariant 0 <= k <= |counts|
      invariant total == Sum(counts[..k])
    {
      assert counts[..k + 1][..k] == counts[..k];
      total := total + counts[k];
      k := k + 1;
    }
    assert counts[..|counts|] == counts;
  }

  /** Writes the document once the curves, their counts, range and points text are known. */
  method WriteDocument(counts: seq<nat>, r: Range, points: seq<Token>) returns (out: seq<Token>)
    ensures out == Document(counts, r, points)
  {
    var total := PointTotal(counts);
    var body := PointsHeader(r) + points;
    body := body + [Text(DataArrayEnd), Endl, Text(PointsEnd), Endl, Text(LinesTag), Endl];
    body := body + IndexArrayHeader(ConnectivityName, total - 1);
    var conn := WriteConnectivity(counts);
    body := body + conn;
    body := body + [Endl, Text(DataArrayEnd), Endl];
    var indexmax: int := if |counts| == 0 then total - 1 else counts[|counts| - 1] as int - 1;
    body := body + IndexArrayHeader(OffsetsName, indexmax);
    var offs := WriteOffsets(counts);
    body := body + offs;
    body := body + [Text(DataArrayEnd), Endl, Text(LinesEnd), Endl,
                    Text(PieceClose), Endl, Text(PolyDataEnd), Endl, Text(VTKFileEnd), Endl];
    out := Preamble(total, |counts|) + body;
  }
}

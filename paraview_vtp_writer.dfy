/**
 * The ParticleMotionVTKConverter writer: for one time window it draws the
 * particle motion of every station whose data cover the window, as one
 * polyline per station, and writes them as one VTK PolyData document.
 * A station whose particle motion throws is skipped once the handler has
 * named it; a station without a name makes that handler throw, out of the
 * writer.  The writer requires every station's data to reach over the
 * window.
 */
module ParaviewVtpWriter {
  import opened Failures
  import opened Numerics
  import opened Geometry
  import opened TextTokens
  import opened Seismograms
  import opened MetadataMaps
  import opened VtpPolyData
  import PMD = ParticleMotionData

  /**
   * The window covers at least one sample of the station: the sample
   * nearest its end is not before the sample nearest its start.
   */
  predicate Covers(v: PMD.PMDValue, nint: real -> int, tw: TimeWindow)
  {
    PMD.Valid(v) && PMD.SampleNumber(v, nint, tw.end) >= PMD.SampleNumber(v, nint, tw.start)
  }

  predicate AllCover(d: seq<PMD.PMDValue>, nint: real -> int, tw: TimeWindow)
  {
    forall k :: 0 <= k < |d| ==> Covers(d[k], nint, tw)
  }

  /**
   * A station the handler cannot name: its particle_motion(tw) throws, and
   * the handler's get_string("sta") throws as well, out of the writer.
   */
  predicate Unreported(v: PMD.PMDValue, nint: real -> int, fmt: real -> string, tw: TimeWindow)
    requires Covers(v, nint, tw)
  {
    PMD.ParticleMotion(v, nint, fmt, tw).Err? && GetString(v.md, "sta").Err?
  }

  /**
   * The particle motions of the stations whose data reach over the window,
   * in order; a station whose motion throws is skipped after its name is
   * logged, and one without a name ends the writer with the get error.
   */
  function Motions(d: seq<PMD.PMDValue>, nint: real -> int, fmt: real -> string, tw: TimeWindow): (r: Result<seq<seq<Vec3>>>)
    requires AllCover(d, nint, tw)
    ensures r.Ok? ==> (forall k :: 0 <= k < |r.value| ==> |r.value[k]| >= 1) && |r.value| <= |d|
    ensures r.Err? ==> r == Throw(MetadataGetError)
  {
    if d == [] then Ok([])
    else
      var init := Motions(d[..|d| - 1], nint, fmt, tw);
      if init.Err? then init
      else
        var pm := PMD.ParticleMotion(d[|d| - 1], nint, fmt, tw);
        if pm.Err? then
          var sta := GetString(d[|d| - 1].md, "sta");
          if sta.Err? then Err(sta.failure) else init
        else
          PMD.ParticleMotionPoints(d[|d| - 1], nint, fmt, tw);
          Ok(init.value + [pm.value])
  }

  /**
   * The stations kept are exactly those whose particle_motion(tw)
   * succeeds: with every station succeeding, curve k is station k's
   * motion, and with none succeeding and every header naming its station
   * nothing is drawn.
   */
  lemma {:induction false} MotionsKeepSuccesses(d: seq<PMD.PMDValue>, nint: real -> int, fmt: real -> string, tw: TimeWindow)
    requires AllCover(d, nint, tw)
    ensures (forall k :: 0 <= k < |d| ==> PMD.ParticleMotion(d[k], nint, fmt, tw).Ok?) ==>
      (Motions(d, nint, fmt, tw).Ok? && |Motions(d, nint, fmt, tw).value| == |d|
       && forall k :: 0 <= k < |d| ==> Motions(d, nint, fmt, tw).value[k] == PMD.ParticleMotion(d[k], nint, fmt, tw).value)
    ensures (forall k :: 0 <= k < |d| ==> PMD.ParticleMotion(d[k], nint, fmt, tw).Err? && GetString(d[k].md, "sta").Ok?) ==>
      Motions(d, nint, fmt, tw) == Ok([])
    decreases |d|
  {
    if d != [] {
      var init := d[..|d| - 1];
      assert forall k :: 0 <= k < |init| ==> init[k] == d[k];
      MotionsKeepSuccesses(init, nint, fmt, tw);
    }
  }

  /** The writer throws exactly when some station is one the handler cannot name. */
  lemma {:induction false} MotionsFailIffUnreported(d: seq<PMD.PMDValue>, nint: real -> int, fmt: real -> string, tw: TimeWindow)
    requires AllCover(d, nint, tw)
    ensures Motions(d, nint, fmt, tw).Err? <==> exists k :: 0 <= k < |d| && Unreported(d[k], nint, fmt, tw)
    decreases |d|
  {
    if d != [] {
      var init := d[..|d| - 1];
      assert forall k :: 0 <= k < |init| ==> init[k] == d[k];
      MotionsFailIffUnreported(init, nint, fmt, tw);
      if exists k :: 0 <= k < |init| && Unreported(init[k], nint, fmt, tw) {
        var k :| 0 <= k < |init| && Unreported(init[k], nint, fmt, tw);
        assert Unreported(d[k], nint, fmt, tw);
      }
    }
  }

  /**
   * Looking at one more station adds its motion when particle_motion(tw)
   * succeeds, skips it when it throws and its header names it, and ends
   * the writer when it throws and its header does not.
   */
  lemma MotionsStep(d: seq<PMD.PMDValue>, nint: real -> int, fmt: real -> string, tw: TimeWindow, k: nat)
    requires AllCover(d, nint, tw) && k < |d|
    ensures AllCover(d[..k], nint, tw) && AllCover(d[..k + 1], nint, tw)
    ensures Motions(d[..k], nint, fmt, tw).Err? ==> Motions(d[..k + 1], nint, fmt, tw) == Motions(d[..k], nint, fmt, tw)
    ensures Motions(d[..k], nint, fmt, tw).Ok? && PMD.ParticleMotion(d[k], nint, fmt, tw).Err? ==>
      Motions(d[..k + 1], nint, fmt, tw) ==
        (if GetString(d[k].md, "sta").Err? then Err(GetString(d[k].md, "sta").failure) else Motions(d[..k], nint, fmt, tw))
    ensures Motions(d[..k], nint, fmt, tw).Ok? && PMD.ParticleMotion(d[k], nint, fmt, tw).Ok? ==>
      Motions(d[..k + 1], nint, fmt, tw) == Ok(Motions(d[..k], nint, fmt, tw).value + [PMD.ParticleMotion(d[k], nint, fmt, tw).value])
  {
    assert d[..k + 1][..k] == d[..k];
    assert d[..k + 1][k] == d[k];
  }

  /** The document WriteTimeWindow writes when no station ends it. */
  function WindowDocument(num: Numerics, show: DMatrix -> seq<Token>, d: seq<PMD.PMDValue>,
                          nint: real -> int, fmt: real -> string, tw: TimeWindow): seq<Token>
    requires AllCover(d, nint, tw) && Motions(d, nint, fmt, tw).Ok?
  {
    CurvesDocument(num, show, Motions(d, nint, fmt, tw).value)
  }

  /**
   * The header counts one line per drawn station and every drawn point,
   * and the points' norms lie within the range written, when dnrm2 is
   * never negative.
   */
  lemma WindowDocumentCounts(num: Numerics, show: DMatrix -> seq<Token>, d: seq<PMD.PMDValue>,
                             nint: real -> int, fmt: real -> string, tw: TimeWindow)
    requires AllCover(d, nint, tw) && Motions(d, nint, fmt, tw).Ok?
    ensures var ms := Motions(d, nint, fmt, tw).value;
      var doc := WindowDocument(num, show, d, nint, fmt, tw);
      && |doc| > 8
      && doc[5] == Int(Sum(Counts(ms)))
      && doc[8] == Int(|ms|)
      && Ints(Connectivity(Counts(ms), 0)) == Consecutive(0, Sum(Counts(ms)))
    ensures var ms := Motions(d, nint, fmt, tw).value;
      NonNegativeNorms(num, ms) ==> forall k, j :: 0 <= k < |ms| && 0 <= j < |ms[k]| ==>
        RangeOver(num, ms).rmin <= Norm(num, ms[k][j]) <= RangeOver(num, ms).rmax
  {
    var ms := Motions(d, nint, fmt, tw).value;
    PreambleCounts(Counts(ms), RangeOver(num, ms), PointsText(show, ms));
    ConnectivityNumbersPoints(Counts(ms), 0);
    if NonNegativeNorms(num, ms) {
      RangeBoundsAllPoints(num, ms);
    }
  }

  /** The motion of one station as particle_motion(tw) returns it: a 3 x n matrix, read back as points. */
  method StationMotion(v: PMD.PMDValue, nint: real -> int, fmt: real -> string, tw: TimeWindow)
    returns (r: Result<seq<Vec3>>)
    requires Covers(v, nint, tw)
    ensures r == PMD.ParticleMotion(v, nint, fmt, tw)
  {
    var p := new PMD.ParticleMotionData.Init(v);
    var m := p.ParticleMotionMatrix(nint, fmt, tw);
    if m.Err? {
      return Err(m.failure);
    }
    r := Ok(PMD.ColumnPoints(m.value));
  }

  /**
   * WriteTimeWindow: the particle motion of every station over tw; a
   * station whose particle_motion(tw) throws is left out, unless its
   * header has no sta, when the handler's get throws out of the writer
   * before anything is written.  The points of each 3 x n motion are
   * written transposed, one point per row.
   */
  method WriteTimeWindow(num: Numerics, show: DMatrix -> seq<Token>, d: seq<PMD.PMDValue>,
                         nint: real -> int, fmt: real -> string, tw: TimeWindow) returns (out: Result<seq<Token>>)
    requires AllCover(d, nint, tw)
    ensures out.Err? <==> Motions(d, nint, fmt, tw).Err?
    ensures out.Err? ==> out.failure == Motions(d, nint, fmt, tw).failure
    ensures out.Ok? ==> out.value == WindowDocument(num, show, d, nint, fmt, tw)
  {
    ghost var curves: seq<seq<Vec3>> := [];
    var counts: seq<nat> := [];
    var text: seq<Token> := [];
    var rmin, rmax := -1.0, 0.0;
    var k := 0;
    while k < |d|
      invariant 0 <= k <= |d|
      invariant AllCover(d[..k], nint, tw) && Motions(d[..k], nint, fmt, tw) == Ok(curves)
      invariant Drawn(num, show, curves, counts, text, Range(rmin, rmax))
    {
      MotionsStep(d, nint, fmt, tw, k);
      var pm := StationMotion(d[k], nint, fmt, tw);
      if pm.Ok? {
        var curve := pm.value;
        PMD.ParticleMotionPoints(d[k], nint, fmt, tw);
        TransposedColumnsAreRows(curve);
        counts, text, rmin, rmax := AddCurve(num, show, curves, counts, text, rmin, rmax, curve, Transposed(ColumnsOf(curve)));
        curves := curves + [curve];
      } else {
        var sta := GetString(d[k].md, "sta");
        if sta.Err? {
          MotionsPrefixFailure(d, nint, fmt, tw, k + 1);
          return Err(sta.failure);
        }
      }
      k := k + 1;
    }
    assert d[..|d|] == d;
    var doc := WriteDocument(counts, Range(rmin, rmax), text);
    out := Ok(doc);
  }

  /** A prefix whose motions end the writer ends the whole writer the same way. */
  lemma {:induction false} MotionsPrefixFailure(d: seq<PMD.PMDValue>, nint: real -> int, fmt: real -> string, tw: TimeWindow, k: nat)
    requires AllCover(d, nint, tw) && k <= |d|
    requires AllCover(d[..k], nint, tw) && Motions(d[..k], nint, fmt, tw).Err?
    ensures Motions(d, nint, fmt, tw) == Motions(d[..k], nint, fmt, tw)
    decreases |d| - k
  {
    if k < |d| {
      MotionsStep(d, nint, fmt, tw, k);
      MotionsPrefixFailure(d, nint, fmt, tw, k + 1);
    } else {
      assert d[..k] == d;
    }
  }
}

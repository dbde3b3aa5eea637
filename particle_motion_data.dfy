/**
 * ParticleMotionData (ParticleMotionVTKConverter): a three-component
 * seismogram placed at its station's Cartesian position, from which the
 * figure of its particle motion is drawn.  raw_motion copies the samples
 * of a time window into a 3 x n matrix, cook turns them in place into
 * positions (scale times the motion plus the station position), and
 * max_amplitude keeps a running maximum of the sample norms.
 */
module ParticleMotionData {
  import opened Failures
  import opened Numerics
  import opened Geometry
  import opened MetadataMaps
  import opened Seismograms

  /** A Geographic_point: latitude and longitude in radians, radius in km. */
  datatype Geographic = Geographic(lat: real, lon: real, r: real)

  /** The RegionalCoordinates converter, which is not part of this model. */
  datatype Coordinates = Coordinates(cartesian: Geographic -> Vec3)

  /** The state of a ParticleMotionData object. */
  datatype PMDValue = PMDValue(
    ns: int,
    dt: real,
    t0: real,
    u: seq<real>,
    md: Attributes,
    scale: real,
    coords: Coordinates,
    x0: Vec3,
    x0geo: Geographic)

  /** A readable sample buffer: 3*ns values and a usable sample interval. */
  predicate Valid(v: PMDValue)
  {
    v.ns >= 0 && |v.u| == 3 * v.ns && v.dt != 0.0
  }

  /** Sample j, column j of the 3 x ns matrix u stored column by column. */
  function Sample(u: seq<real>, j: int): Vec3
    requires 0 <= j && 3 * j + 2 < |u|
  {
    Vec3(u[3 * j], u[3 * j + 1], u[3 * j + 2])
  }

  /** sample_number(t): the nearest sample to time t. */
  function SampleNumber(v: PMDValue, nint: real -> int, t: real): int
    requires v.dt != 0.0
  {
    nint((t - v.t0) / v.dt)
  }

  /** The station position the constructor derives from site.lat, site.lon and site.elev. */
  function Located(md: Attributes, coords: Coordinates, r0: real -> real): (r: Result<(Geographic, Vec3)>)
    ensures r.Ok? <==> GetReal(md, "site.lat").Ok? && GetReal(md, "site.lon").Ok? && GetReal(md, "site.elev").Ok?
    ensures r.Ok? ==> (r.value.0.lat == Rad(GetReal(md, "site.lat").value)
      && r.value.0.lon == Rad(GetReal(md, "site.lon").value)
      && r.value.0.r == r0(Rad(GetReal(md, "site.lat").value)) + GetReal(md, "site.elev").value
      && r.value.1 == coords.cartesian(r.value.0))
  {
    var lat := GetReal(md, "site.lat");
    var lon := GetReal(md, "site.lon");
    var elev := GetReal(md, "site.elev");
    if lat.Err? then Err(lat.failure)
    else if lon.Err? then Err(lon.failure)
    else if elev.Err? then Err(elev.failure)
    else
      var g := Geographic(Rad(lat.value), Rad(lon.value), r0(Rad(lat.value)) + elev.value);
      Ok((g, coords.cartesian(g)))
  }

  const StartRequest: string := "ParticleMotionData::raw_motion(TimeWindow):  Requested window start time="
  const BeforeStart: string := " is before data start time of "
  const EndRequest: string := "ParticleMotionData::raw_motion(TimeWindow):  Requested window end = "
  const BeyondEnd: string := " is beyond the end of data at time "

  function StartMessage(fmt: real -> string, start: real, t0: real): string
  {
    StartRequest + fmt(start) + BeforeStart + fmt(t0)
  }

  function EndMessage(fmt: real -> string, end: real, endtime: real): string
  {
    EndRequest + fmt(end) + BeyondEnd + fmt(endtime)
  }

  /** The window does not end more than one sample before it starts. */
  predicate Ordered(v: PMDValue, nint: real -> int, tw: TimeWindow)
    requires v.dt != 0.0
  {
    SampleNumber(v, nint, tw.end) >= SampleNumber(v, nint, tw.start) - 1
  }

  /** The samples lo, lo+1, ..., lo+n-1. */
  function Samples(u: seq<real>, lo: int, n: int): (pts: seq<Vec3>)
    requires 0 <= lo && 0 <= n && 3 * (lo + n) <= |u|
    ensures |pts| == n
    ensures forall j :: 0 <= j < n ==> pts[j] == Sample(u, lo + j)
  {
    seq(n, j requires 0 <= j < n => Sample(u, lo + j))
  }

  /**
   * raw_motion(tw): the samples from the one nearest the window start to
   * the one nearest its end, or an error when either lies outside the data.
   */
  function RawMotion(v: PMDValue, nint: real -> int, fmt: real -> string, tw: TimeWindow): (r: Result<seq<Vec3>>)
    requires Valid(v) && Ordered(v, nint, tw)
    ensures r.Ok? <==> 0 <= SampleNumber(v, nint, tw.start) && SampleNumber(v, nint, tw.end) < v.ns
    ensures SampleNumber(v, nint, tw.start) < 0 ==> r == Throw(StartMessage(fmt, tw.start, v.t0))
    ensures 0 <= SampleNumber(v, nint, tw.start) && SampleNumber(v, nint, tw.end) >= v.ns ==>
      r == Throw(EndMessage(fmt, tw.end, EndTime(v.t0, v.ns, v.dt)))
    ensures r.Ok? ==> var ss := SampleNumber(v, nint, tw.start);
      && |r.value| == SampleNumber(v, nint, tw.end) - ss + 1
      && forall j :: 0 <= j < |r.value| ==> r.value[j] == Sample(v.u, ss + j)
  {
    var ss := SampleNumber(v, nint, tw.start);
    var se := SampleNumber(v, nint, tw.end);
    if ss < 0 then Throw(StartMessage(fmt, tw.start, v.t0))
    else if se >= v.ns then Throw(EndMessage(fmt, tw.end, EndTime(v.t0, v.ns, v.dt)))
    else Ok(Samples(v.u, ss, se - ss + 1))
  }

  /** The window raw_motion() uses: the whole record. */
  function FullSpan(v: PMDValue): TimeWindow
  {
    TimeWindow(v.t0, EndTime(v.t0, v.ns, v.dt))
  }

  /** With a rounding nint, raw_motion() returns every sample of the record. */
  lemma FullSpanIsWholeRecord(v: PMDValue, nint: real -> int, fmt: real -> string)
    requires Valid(v) && RoundsToNearest(nint)
    ensures SampleNumber(v, nint, v.t0) == 0
    ensures SampleNumber(v, nint, EndTime(v.t0, v.ns, v.dt)) == v.ns - 1
    ensures Ordered(v, nint, FullSpan(v))
    ensures RawMotion(v, nint, fmt, FullSpan(v)) == Ok(Samples(v.u, 0, v.ns))
  {
    assert (v.t0 - v.t0) / v.dt == 0 as real;
    NintOfInteger(nint, 0);
    assert (EndTime(v.t0, v.ns, v.dt) - v.t0) / v.dt == (v.ns - 1) as real;
    NintOfInteger(nint, v.ns - 1);
    var r := RawMotion(v, nint, fmt, FullSpan(v));
    assert r.Ok?;
    assert r.value == Samples(v.u, 0, v.ns);
  }

  /** cook: each point becomes scale times itself plus the station position. */
  function Cooked(scale: real, x0: Vec3, pts: seq<Vec3>): (q: seq<Vec3>)
    ensures |q| == |pts|
    ensures forall j :: 0 <= j < |pts| ==> q[j] == Add(Scale(scale, pts[j]), x0)
  {
    seq(|pts|, j requires 0 <= j < |pts| => Add(Scale(scale, pts[j]), x0))
  }

  /** Entry c of a cooked column: scale times the entry plus the station's coordinate c. */
  function Shifted(scale: real, x0: Vec3, c: int, entry: real): real
    requires 0 <= c < 3
  {
    scale * entry + Component(x0, c)
  }

  /** particle_motion(tw): the cooked samples of the window. */
  function ParticleMotion(v: PMDValue, nint: real -> int, fmt: real -> string, tw: TimeWindow): Result<seq<Vec3>>
    requires Valid(v) && Ordered(v, nint, tw)
  {
    var raw := RawMotion(v, nint, fmt, tw);
    if raw.Err? then Err(raw.failure)
    else Ok(Cooked(v.scale, v.x0, raw.value))
  }

  /**
   * Point j of the figure for window tw is the station position plus scale
   * times the ground motion at the j-th sample of the window; the figure
   * fails exactly when the raw window does.
   */
  lemma ParticleMotionPoints(v: PMDValue, nint: real -> int, fmt: real -> string, tw: TimeWindow)
    requires Valid(v) && Ordered(v, nint, tw)
    ensures ParticleMotion(v, nint, fmt, tw).Ok? <==> RawMotion(v, nint, fmt, tw).Ok?
    ensures ParticleMotion(v, nint, fmt, tw).Err? ==>
      ParticleMotion(v, nint, fmt, tw) == RawMotion(v, nint, fmt, tw)
    ensures ParticleMotion(v, nint, fmt, tw).Ok? ==>
      var ss := SampleNumber(v, nint, tw.start);
      var pm := ParticleMotion(v, nint, fmt, tw).value;
      && |pm| == SampleNumber(v, nint, tw.end) - ss + 1
      && forall j :: 0 <= j < |pm| ==> pm[j] == Add(Scale(v.scale, Sample(v.u, ss + j)), v.x0)
  {
  }

  /** With scale 1 and the station at the origin, cooking changes nothing. */
  lemma CookedIdentity(pts: seq<Vec3>)
    ensures Cooked(1.0, Origin, pts) == pts
  {
    assert forall j :: 0 <= j < |pts| ==> Add(Scale(1.0, pts[j]), Origin) == pts[j];
  }

  // ---------------------------------------------------------------------
  // Running maximum of the sample norms

  /** The largest norm among pts, starting from 0 (dmax's initial value). */
  function MaxNorm(nrm2: Vec3 -> real, pts: seq<Vec3>): real
  {
    if pts == [] then 0.0
    else
      var m := MaxNorm(nrm2, pts[..|pts| - 1]);
      var d := nrm2(pts[|pts| - 1]);
      if d > m then d else m
  }

  /** MaxNorm is at least 0 and at least every norm. */
  lemma {:induction false} MaxNormBounds(nrm2: Vec3 -> real, pts: seq<Vec3>)
    ensures MaxNorm(nrm2, pts) >= 0.0
    ensures forall j :: 0 <= j < |pts| ==> nrm2(pts[j]) <= MaxNorm(nrm2, pts)
    decreases |pts|
  {
    if pts != [] {
      var init := pts[..|pts| - 1];
      MaxNormBounds(nrm2, init);
      assert forall j :: 0 <= j < |init| ==> init[j] == pts[j];
    }
  }

  /** MaxNorm is 0 or the norm of one of the points. */
  lemma {:induction false} MaxNormAttained(nrm2: Vec3 -> real, pts: seq<Vec3>)
    ensures MaxNorm(nrm2, pts) == 0.0 || exists j :: 0 <= j < |pts| && MaxNorm(nrm2, pts) == nrm2(pts[j])
    decreases |pts|
  {
    if pts != [] {
      var init := pts[..|pts| - 1];
      MaxNormAttained(nrm2, init);
      if MaxNorm(nrm2, pts) != 0.0 && MaxNorm(nrm2, pts) == MaxNorm(nrm2, init) {
        var j :| 0 <= j < |init| && MaxNorm(nrm2, init) == nrm2(init[j]);
        assert init[j] == pts[j];
      }
    }
  }

  /**
   * max_amplitude(tw) as written: the loop runs as many times as the
   * window has samples, but reads the record's first samples.
   */
  function MaxAmplitudeInAsWritten(nrm2: Vec3 -> real, v: PMDValue, nint: real -> int, fmt: real -> string, tw: TimeWindow): Result<real>
    requires Valid(v) && Ordered(v, nint, tw)
  {
    var raw := RawMotion(v, nint, fmt, tw);
    if raw.Err? then Err(raw.failure)
    else Ok(Amplitude(MaxNorm(nrm2, Samples(v.u, 0, |raw.value|)), v.scale))
  }

  /** max_amplitude(tw) over the window's own samples. */
  function MaxAmplitudeIn(nrm2: Vec3 -> real, v: PMDValue, nint: real -> int, fmt: real -> string, tw: TimeWindow): Result<real>
    requires Valid(v) && Ordered(v, nint, tw)
  {
    var raw := RawMotion(v, nint, fmt, tw);
    if raw.Err? then Err(raw.failure)
    else Ok(Amplitude(MaxNorm(nrm2, raw.value), v.scale))
  }

  /** The amplitude reported for a largest norm m: m times the plot scale. */
  function Amplitude(m: real, scale: real): real
  {
    m * scale
  }

  /** max_amplitude(tw) fails as raw_motion(tw) does, or scales its maximum norm. */
  lemma MaxAmplitudeInCases(nrm2: Vec3 -> real, v: PMDValue, nint: real -> int, fmt: real -> string, tw: TimeWindow)
    requires Valid(v) && Ordered(v, nint, tw)
    ensures RawMotion(v, nint, fmt, tw).Err? ==> MaxAmplitudeIn(nrm2, v, nint, fmt, tw) == Err(RawMotion(v, nint, fmt, tw).failure)
    ensures RawMotion(v, nint, fmt, tw).Ok? ==>
      MaxAmplitudeIn(nrm2, v, nint, fmt, tw) == Ok(Amplitude(MaxNorm(nrm2, RawMotion(v, nint, fmt, tw).value), v.scale))
  {
  }

  /**
   * For a non-negative scale the windowed maximum is non-negative and bounds
   * the scaled norm of every sample raw_motion(tw) returns for the window.
   */
  lemma MaxAmplitudeInBoundsWindow(nrm2: Vec3 -> real, v: PMDValue, nint: real -> int, fmt: real -> string, tw: TimeWindow, pts: seq<Vec3>)
    requires Valid(v) && Ordered(v, nint, tw)
    requires v.scale >= 0.0
    requires RawMotion(v, nint, fmt, tw) == Ok(pts)
    ensures var a := MaxAmplitudeIn(nrm2, v, nint, fmt, tw);
      && a.Ok? && a.value >= 0.0
      && forall k :: 0 <= k < |pts| ==> nrm2(pts[k]) * v.scale <= a.value
  {
    MaxAmplitudeInCases(nrm2, v, nint, fmt, tw);
    ScaledMaxNormBounds(nrm2, pts, v.scale);
  }

  /** Scaling by a non-negative factor keeps MaxNorm the largest scaled norm. */
  lemma ScaledMaxNormBounds(nrm2: Vec3 -> real, pts: seq<Vec3>, scale: real)
    requires scale >= 0.0
    ensures Amplitude(MaxNorm(nrm2, pts), scale) >= 0.0
    ensures forall k :: 0 <= k < |pts| ==> nrm2(pts[k]) * scale <= Amplitude(MaxNorm(nrm2, pts), scale)
  {
    MaxNormBounds(nrm2, pts);
    MulMonotone(0.0, MaxNorm(nrm2, pts), scale);
    forall k | 0 <= k < |pts|
      ensures nrm2(pts[k]) * scale <= MaxNorm(nrm2, pts) * scale
    {
      MulMonotone(nrm2(pts[k]), MaxNorm(nrm2, pts), scale);
    }
  }

  lemma MulMonotone(a: real, b: real, s: real)
    requires a <= b && s >= 0.0
    ensures a * s <= b * s
  {
  }

  /** raw_motion's copy loop: column q of result is sample ss + q of the packed 3C data. */
  method CopyWindow(data: seq<real>, ss: int, result: array2<real>)
    requires result.Length0 == 3 && 0 <= ss && 3 * (ss + result.Length1) <= |data|
    modifies result
    ensures forall q, c :: 0 <= q < result.Length1 && 0 <= c < 3 ==> result[c, q] == data[3 * (ss + q) + c]
  {
    for j := 0 to result.Length1
      invariant forall q, c :: 0 <= q < j && 0 <= c < 3 ==> result[c, q] == data[3 * (ss + q) + c]
    {
      for i := 0 to 3
        invariant forall q, c :: 0 <= q < j && 0 <= c < 3 ==> result[c, q] == data[3 * (ss + q) + c]
        invariant forall c :: 0 <= c < i ==> result[c, j] == data[3 * (ss + j) + c]
      {
        result[i, j] := data[3 * (ss + j) + i];
      }
    }
  }

  /**
   * A record of two samples, silent then moving, and a window holding only
   * the second: as written, the maximum reads the silent first sample.
   */
  lemma MaxAmplitudeInAsWrittenReadsWrongSamples(nrm2: Vec3 -> real, nint: real -> int, fmt: real -> string, coords: Coordinates)
    requires RoundsToNearest(nint)
    requires nrm2(Vec3(0.0, 0.0, 0.0)) == 0.0 && nrm2(Vec3(1.0, 0.0, 0.0)) == 1.0
    ensures var v := PMDValue(2, 1.0, 0.0, [0.0, 0.0, 0.0, 1.0, 0.0, 0.0], map[], 1.0, coords, Origin, Geographic(0.0, 0.0, 0.0));
      && Valid(v) && Ordered(v, nint, TimeWindow(1.0, 1.0))
      && MaxAmplitudeInAsWritten(nrm2, v, nint, fmt, TimeWindow(1.0, 1.0)) == Ok(0.0)
      && MaxAmplitudeIn(nrm2, v, nint, fmt, TimeWindow(1.0, 1.0)) == Ok(1.0)
  {
    var v := PMDValue(2, 1.0, 0.0, [0.0, 0.0, 0.0, 1.0, 0.0, 0.0], map[], 1.0, coords, Origin, Geographic(0.0, 0.0, 0.0));
    var tw := TimeWindow(1.0, 1.0);
    assert (tw.start - v.t0) / v.dt == 1 as real;
    NintOfInteger(nint, 1);
    var pts := RawMotion(v, nint, fmt, tw).value;
    assert pts == [Sample(v.u, 1)];
    assert Sample(v.u, 1) == Vec3(1.0, 0.0, 0.0);
    assert Sample(v.u, 0) == Vec3(0.0, 0.0, 0.0);
    assert pts[..0] == [];
    assert MaxNorm(nrm2, pts) == 1.0;
    var first := Samples(v.u, 0, |pts|);
    assert first == [Vec3(0.0, 0.0, 0.0)];
    assert first[..0] == [];
    assert MaxNorm(nrm2, first) == 0.0;
  }

  // ---------------------------------------------------------------------
  // The object

  class ParticleMotionData {
    var ns: int
    var dt: real
    var t0: real
    var u: seq<real>
    var md: Attributes
    var scale: real
    var coords: Coordinates
    var x0: Vec3
    var x0geo: Geographic

    function Value(): PMDValue
      reads this
    {
      PMDValue(ns, dt, t0, u, md, scale, coords, x0, x0geo)
    }

    constructor Init(v: PMDValue)
      ensures Value() == v
    {
      ns := v.ns;
      dt := v.dt;
      t0 := v.t0;
      u := v.u;
      md := v.md;
      scale := v.scale;
      coords := v.coords;
      x0 := v.x0;
      x0geo := v.x0geo;
    }

    /**
     * The constructor from a seismogram: the station position comes from
     * its header, and the scale starts at 1.  The debug line that reports
     * the position reads sta, so a header without it throws there, and the
     * catch(...) passes that on.
     */
    static method Build(d: Seis3C, coords: Coordinates, r0: real -> real) returns (r: Result<ParticleMotionData>)
      ensures Located(d.md, coords, r0).Err? ==> r == Err(Located(d.md, coords, r0).failure)
      ensures Located(d.md, coords, r0).Ok? && GetString(d.md, "sta").Err? ==> r == Err(GetString(d.md, "sta").failure)
      ensures Located(d.md, coords, r0).Ok? && GetString(d.md, "sta").Ok? ==> (r.Ok? && fresh(r.value)
        && r.value.Value() == PMDValue(d.ns, d.dt, d.t0, d.u, d.md, 1.0, coords,
                                       Located(d.md, coords, r0).value.1, Located(d.md, coords, r0).value.0))
    {
      var lat := GetReal(d.md, "site.lat");
      if lat.Err? {
        return Err(lat.failure);
      }
      var lon := GetReal(d.md, "site.lon");
      if lon.Err? {
        return Err(lon.failure);
      }
      var elev := GetReal(d.md, "site.elev");
      if elev.Err? {
        return Err(elev.failure);
      }
      var g := Geographic(Rad(lat.value), Rad(lon.value), r0(Rad(lat.value)) + elev.value);
      var cp := coords.cartesian(g);
      var sta := GetString(d.md, "sta");
      if sta.Err? {
        return Err(sta.failure);
      }
      var p := new ParticleMotionData.Init(PMDValue(d.ns, d.dt, d.t0, d.u, d.md, 1.0, coords, cp, g));
      r := Ok(p);
    }

    /** The copy constructor. */
    constructor Copy(parent: ParticleMotionData)
      ensures Value() == parent.Value()
    {
      ns := parent.ns;
      dt := parent.dt;
      t0 := parent.t0;
      u := parent.u;
      md := parent.md;
      scale := parent.scale;
      coords := parent.coords;
      x0 := parent.x0;
      x0geo := parent.x0geo;
    }

    /** operator=: self-assignment leaves the object as it is. */
    method Assign(parent: ParticleMotionData)
      modifies this
      ensures Value() == old(parent.Value())
    {
      if this != parent {
        ns := parent.ns;
        dt := parent.dt;
        t0 := parent.t0;
        u := parent.u;
        md := parent.md;
        scale := parent.scale;
        coords := parent.coords;
        x0 := parent.x0;
        x0geo := parent.x0geo;
      }
    }

    method SetScale(sc: real)
      modifies this
      ensures Value() == old(Value()).(scale := sc)
    {
      scale := sc;
    }

    function GetScale(): (s: real)
      reads this
      ensures s == Value().scale
    {
      scale
    }

    function Center(): (c: Vec3)
      reads this
      ensures c == Value().x0
    {
      x0
    }

    function GeographicCenter(): (g: Geographic)
      reads this
      ensures g == Value().x0geo
    {
      x0geo
    }

    /** timespan(): from the first to the last sample time. */
    function TimeSpan(): (w: TimeWindow)
      reads this
      ensures w == FullSpan(Value())
    {
      TimeWindow(t0, EndTime(t0, ns, dt))
    }

    /** raw_motion(tw): a fresh 3 x n matrix of the window's samples. */
    method RawMotionMatrix(nint: real -> int, fmt: real -> string, tw: TimeWindow) returns (r: Result<array2<real>>)
      requires Valid(Value()) && Ordered(Value(), nint, tw)
      ensures RawMotion(Value(), nint, fmt, tw).Err? ==> r == Err(RawMotion(Value(), nint, fmt, tw).failure)
      ensures RawMotion(Value(), nint, fmt, tw).Ok? ==> (r.Ok? && fresh(r.value) && r.value.Length0 == 3
        && ColumnPoints(r.value) == RawMotion(Value(), nint, fmt, tw).value)
    {
      ghost var v := Value();
      var ss := nint((tw.start - t0) / dt);
      var se := nint((tw.end - t0) / dt);
      assert ss == SampleNumber(v, nint, tw.start) && se == SampleNumber(v, nint, tw.end);
      if ss < 0 {
        return Throw(StartMessage(fmt, tw.start, t0));
      } else if se >= ns {
        return Throw(EndMessage(fmt, tw.end, EndTime(t0, ns, dt)));
      }
      var ncol := se - ss + 1;
      var result := new real[3, ncol];
      CopyWindow(u, ss, result);
      ghost var raw := RawMotion(v, nint, fmt, tw).value;
      assert forall q :: 0 <= q < ncol ==> ColumnPoints(result)[q] == Sample(u, ss + q) == raw[q];
      r := Ok(result);
    }

    /** cook: d(i,j) = scale*d(i,j) + x0[i] for every entry, in place. */
    method Cook(d: array2<real>)
      requires d.Length0 == 3
      modifies d
      ensures forall c, q :: 0 <= c < 3 && 0 <= q < d.Length1 ==> d[c, q] == Shifted(scale, x0, c, old(d[c, q]))
      ensures ColumnPoints(d) == Cooked(scale, x0, old(ColumnPoints(d)))
    {
      ghost var before := ColumnPoints(d);
      var ncol := d.Length1;
      var s := scale;
      var p := x0;
      for j := 0 to ncol
        invariant forall c, q :: 0 <= c < 3 && 0 <= q < j ==> d[c, q] == Shifted(s, p, c, old(d[c, q]))
        invariant forall c, q :: 0 <= c < 3 && j <= q < ncol ==> d[c, q] == old(d[c, q])
      {
        for i := 0 to 3
          invariant forall c, q :: 0 <= c < 3 && 0 <= q < j ==> d[c, q] == Shifted(s, p, c, old(d[c, q]))
          invariant forall c, q :: 0 <= c < 3 && j < q < ncol ==> d[c, q] == old(d[c, q])
          invariant forall c :: 0 <= c < i ==> d[c, j] == Shifted(s, p, c, old(d[c, j]))
          invariant forall c :: i <= c < 3 ==> d[c, j] == old(d[c, j])
        {
          d[i, j] := s * d[i, j] + Component(p, i);
        }
      }
      forall q | 0 <= q < ncol
        ensures ColumnPoint(d, q) == Add(Scale(s, before[q]), p)
      {
        assert before[q] == Vec3(old(d[0, q]), old(d[1, q]), old(d[2, q]));
      }
    }

    /** particle_motion(tw): raw_motion(tw) cooked. */
    method ParticleMotionMatrix(nint: real -> int, fmt: real -> string, tw: TimeWindow) returns (r: Result<array2<real>>)
      requires Valid(Value()) && Ordered(Value(), nint, tw)
      ensures ParticleMotion(Value(), nint, fmt, tw).Err? ==> r == Err(ParticleMotion(Value(), nint, fmt, tw).failure)
      ensures ParticleMotion(Value(), nint, fmt, tw).Ok? ==> (r.Ok? && fresh(r.value) && r.value.Length0 == 3
        && ColumnPoints(r.value) == ParticleMotion(Value(), nint, fmt, tw).value)
    {
      r := RawMotionMatrix(nint, fmt, tw);
      if r.Ok? {
        Cook(r.value);
      }
    }

    /** particle_motion(): the figure of the whole record. */
    method WholeParticleMotion(nint: real -> int, fmt: real -> string) returns (r: Result<array2<real>>)
      requires Valid(Value()) && RoundsToNearest(nint)
      ensures r.Ok? && fresh(r.value) && r.value.Length0 == 3
      ensures ColumnPoints(r.value) == Cooked(scale, x0, Samples(u, 0, ns))
    {
      FullSpanIsWholeRecord(Value(), nint, fmt);
      r := ParticleMotionMatrix(nint, fmt, TimeSpan());
    }

    /**
     * max_amplitude(): the largest sample norm over the whole record,
     * times the scale.  raw_motion() is called first and can only fail
     * through it.
     */
    method MaxAmplitude(nrm2: Vec3 -> real, nint: real -> int, fmt: real -> string) returns (r: Result<real>)
      requires Valid(Value()) && RoundsToNearest(nint)
      ensures r == Ok(Amplitude(MaxNorm(nrm2, Samples(u, 0, ns)), scale))
    {
      FullSpanIsWholeRecord(Value(), nint, fmt);
      var rd := RawMotionMatrix(nint, fmt, TimeSpan());
      var dmax := 0.0;
      var data := u;
      ghost var pts := Samples(data, 0, ns);
      var i := 0;
      while i < ns
        invariant 0 <= i <= ns
        invariant dmax == MaxNorm(nrm2, pts[..i])
      {
        var d := nrm2(Sample(data, i));
        assert pts[..i + 1][..i] == pts[..i];
        assert pts[..i + 1][i] == Sample(data, i);
        if d > dmax {
          dmax := d;
        }
        i := i + 1;
      }
      assert pts[..ns] == pts;
      r := Ok(Amplitude(dmax, scale));
    }

    /** max_amplitude(tw), reading the window's own samples. */
    method MaxAmplitudeInWindow(nrm2: Vec3 -> real, nint: real -> int, fmt: real -> string, tw: TimeWindow) returns (r: Result<real>)
      requires Valid(Value()) && Ordered(Value(), nint, tw)
      ensures r == MaxAmplitudeIn(nrm2, Value(), nint, fmt, tw)
    {
      MaxAmplitudeInCases(nrm2, Value(), nint, fmt, tw);
      var rd := RawMotionMatrix(nint, fmt, tw);
      if rd.Err? {
        return Err(rd.failure);
      }
      var a := rd.value;
      ghost var pts := ColumnPoints(a);
      assert pts == RawMotion(Value(), nint, fmt, tw).value;
      var dmax := 0.0;
      var nc := a.Length1;
      var i := 0;
      while i < nc
        invariant 0 <= i <= nc
        invariant dmax == MaxNorm(nrm2, pts[..i])
      {
        var d := nrm2(ColumnPoint(a, i));
        assert pts[..i + 1][..i] == pts[..i];
        assert pts[..i + 1][i] == ColumnPoint(a, i);
        if d > dmax {
          dmax := d;
        }
        i := i + 1;
      }
      assert pts[..nc] == pts;
      r := Ok(Amplitude(dmax, scale));
    }
  }

  /** Column j of a 3 x n matrix as a point. */
  function ColumnPoint(a: array2<real>, j: int): Vec3
    requires a.Length0 == 3 && 0 <= j < a.Length1
    reads a
  {
    Vec3(a[0, j], a[1, j], a[2, j])
  }

  /** The points held in the columns of a 3 x n matrix. */
  function ColumnPoints(a: array2<real>): (pts: seq<Vec3>)
    requires a.Length0 == 3
    reads a
    ensures |pts| == a.Length1
    ensures forall j :: 0 <= j < a.Length1 ==> pts[j] == ColumnPoint(a, j)
  {
    seq(a.Length1, j requires 0 <= j < a.Length1 reads a => ColumnPoint(a, j))
  }
}

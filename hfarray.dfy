/**
 * HFArray: a small-aperture seismic array.  Stations are named points in a
 * local Cartesian frame (east, north, up, in km) about a geographic origin;
 * the array answers station coordinates and plane-wave moveouts.
 *
 * The text file is passed in already scanned: the header's three numbers and
 * one record per station line, None standing for the first line fscanf could
 * not read four fields from.  r0_ellipse (the Earth radius at a latitude) and
 * RegionalCoordinates' conversion to geographic points are parameters.
 */
module HFArray {
  import opened Failures
  import opened Numerics
  import opened Geometry

  /** One scanned station line: name and east, north, up coordinates. */
  datatype StationLine = StationLine(sta: string, x: Vec3)

  /** The RegionalCoordinates origin: latitude and longitude in radians, radius, rotation angle. */
  datatype Origin = Origin(lat: real, lon: real, radius: real, azimuth: real)

  datatype StationArray = StationArray(stations: map<string, Vec3>, coords: Origin)

  /** SlownessVector: the horizontal slowness components. */
  datatype Slowness = Slowness(ux: real, uy: real)

  const TextError: string := "HFArray text file constructor:  "

  /** The lines the read loop consumes: every record before the first unreadable one. */
  function Scanned(records: seq<Option<StationLine>>): (lines: seq<StationLine>)
    ensures |lines| <= |records|
    ensures forall i :: 0 <= i < |lines| ==> records[i] == Some(lines[i])
    ensures |lines| < |records| ==> records[|lines|].None?
  {
    if records == [] || records[0].None? then []
    else [records[0].value] + Scanned(records[1..])
  }

  /** The station map after inserting the lines in order; map::insert keeps an existing entry. */
  function Inserted(lines: seq<StationLine>): map<string, Vec3>
  {
    if lines == [] then map[]
    else
      var m := Inserted(lines[..|lines| - 1]);
      var l := lines[|lines| - 1];
      if l.sta in m then m else m[l.sta := l.x]
  }

  /** Index of the first line that names sta. */
  predicate FirstNaming(lines: seq<StationLine>, sta: string, i: int)
  {
    0 <= i < |lines| && lines[i].sta == sta && forall j :: 0 <= j < i ==> lines[j].sta != sta
  }

  /** The stations in the map are exactly the names the lines carry. */
  lemma {:induction false} InsertedKeys(lines: seq<StationLine>)
    ensures forall sta :: sta in Inserted(lines) <==> exists i :: 0 <= i < |lines| && lines[i].sta == sta
  {
    if lines != [] {
      var init := lines[..|lines| - 1];
      InsertedKeys(init);
      forall sta | sta in Inserted(lines)
        ensures exists i :: 0 <= i < |lines| && lines[i].sta == sta
      {
        if sta in Inserted(init) {
          var i :| 0 <= i < |init| && init[i].sta == sta;
          assert lines[i].sta == sta;
        } else {
          assert lines[|lines| - 1].sta == sta;
        }
      }
      forall sta | exists i :: 0 <= i < |lines| && lines[i].sta == sta
        ensures sta in Inserted(lines)
      {
        var i :| 0 <= i < |lines| && lines[i].sta == sta;
        if i < |lines| - 1 {
          assert init[i].sta == sta;
        }
      }
    }
  }

  /** A station's coordinates are those of the first line naming it: later duplicates are ignored. */
  lemma {:induction false} InsertedKeepsFirst(lines: seq<StationLine>, i: int)
    requires 0 <= i < |lines| && FirstNaming(lines, lines[i].sta, i)
    ensures lines[i].sta in Inserted(lines) && Inserted(lines)[lines[i].sta] == lines[i].x
  {
    var init := lines[..|lines| - 1];
    if i < |lines| - 1 {
      assert init[i] == lines[i];
      assert FirstNaming(init, init[i].sta, i);
      InsertedKeepsFirst(init, i);
    } else {
      InsertedKeys(init);
      assert forall j :: 0 <= j < |init| ==> init[j].sta != lines[i].sta;
    }
  }

  /** The origin the constructor builds from the header: degrees converted, elevation added to r0. */
  function HeaderOrigin(r0: real -> real, olat: real, olon: real, oelev: real): Origin
  {
    Origin(Rad(olat), Rad(olon), r0(Rad(olat)) + oelev, 0.0)
  }

  /** The text-file constructor. */
  method FromText(r0: real -> real, fname: string, canOpen: bool, olat: real, olon: real, oelev: real,
                  records: seq<Option<StationLine>>)
    returns (r: Result<StationArray>)
    ensures !canOpen ==> r == Err(Thrown(TextError + "Open failed for input file " + fname))
    ensures canOpen ==> r == Ok(StationArray(Inserted(Scanned(records)), HeaderOrigin(r0, olat, olon, oelev)))
  {
    if !canOpen {
      return Throw(TextError + "Open failed for input file " + fname);
    }
    var lat := Rad(olat);
    var lon := Rad(olon);
    var oradius := r0(lat) + oelev;
    var coords := Origin(lat, lon, oradius, 0.0);
    var stations: map<string, Vec3> := map[];
    var i := 0;
    while i < |records| && records[i].Some?
      invariant 0 <= i <= |Scanned(records)|
      invariant stations == Inserted(Scanned(records)[..i])
    {
      var line := records[i].value;
      assert Scanned(records)[..i + 1] == Scanned(records)[..i] + [line];
      if line.sta !in stations {
        stations := stations[line.sta := line.x];
      }
      i := i + 1;
    }
    assert Scanned(records)[..i] == Scanned(records);
    return Ok(StationArray(stations, coords));
  }

  /** x(sta): the stored coordinates, or a throw for a station not in the array. */
  function X(a: StationArray, sta: string): (r: Result<Vec3>)
    ensures r.Ok? <==> sta in a.stations
    ensures r.Ok? ==> r.value == a.stations[sta]
    ensures r.Err? ==> r.failure == Thrown("HFArray x method:  " + sta + " location not defined")
  {
    if sta in a.stations then Ok(a.stations[sta])
    else Throw("HFArray x method:  " + sta + " location not defined")
  }

  /** The square of the vertical slowness, from the total and horizontal slowness. */
  function Radicand(u0: real, ul2n: real): real { u0 * u0 - ul2n * ul2n }

  /** Vertical slowness: zero for a mode evanescent at the surface velocity. */
  function VerticalSlowness(num: Numerics, u0: real, ul2n: real): (uz: real)
    ensures u0 < ul2n ==> uz == 0.0
    ensures !(u0 < ul2n) ==> uz == num.sqrt(Radicand(u0, ul2n))
  {
    if u0 < ul2n then 0.0 else num.sqrt(Radicand(u0, ul2n))
  }

  /** The 3-D slowness vector for a horizontal slowness u and surface velocity v0. */
  function SlownessVector3(num: Numerics, u: Slowness, v0: real): Vec3
    requires v0 != 0.0
  {
    var ul2n := Norm(num, Vec3(u.ux, u.uy, 0.0));
    Vec3(u.ux, u.uy, VerticalSlowness(num, 1.0 / v0, ul2n))
  }

  /** moveout(sta, u, v0): the dot product of the 3-D slowness with the station position. */
  function Moveout(num: Numerics, a: StationArray, sta: string, u: Slowness, v0: real): (r: Result<real>)
    requires v0 != 0.0
    ensures r.Ok? <==> sta in a.stations
    ensures r.Ok? ==> r.value == Dot(SlownessVector3(num, u, v0), a.stations[sta])
    ensures r.Err? ==> r == Throw("HFArray x method:  " + sta + " location not defined")
  {
    match X(a, sta)
    case Err(f) => Err(f)
    case Ok(xr) =>
      var ul2n := Norm(num, Vec3(u.ux, u.uy, 0.0));
      var uz := VerticalSlowness(num, 1.0 / v0, ul2n);
      Ok(u.ux * xr.x + u.uy * xr.y + uz * xr.z)
  }

  /** A square root that is exact at q. */
  predicate ExactSqrt(num: Numerics, q: real)
  {
    num.sqrt(q) >= 0.0 && num.sqrt(q) * num.sqrt(q) == q
  }

  /**
   * For a propagating mode (|u| <= 1/v0) the 3-D slowness vector has length
   * 1/v0: the vertical component completes the surface slowness.
   */
  lemma PropagatingSlownessLength(num: Numerics, u: Slowness, v0: real)
    requires v0 != 0.0
    requires ExactNorm(num, Vec3(u.ux, u.uy, 0.0))
    requires var ul2n := Norm(num, Vec3(u.ux, u.uy, 0.0));
      !(1.0 / v0 < ul2n) && ExactSqrt(num, Radicand(1.0 / v0, ul2n))
    ensures var s := SlownessVector3(num, u, v0); Dot(s, s) == (1.0 / v0) * (1.0 / v0)
  {
    var u0 := 1.0 / v0;
    var h := Vec3(u.ux, u.uy, 0.0);
    var ul2n := Norm(num, h);
    assert ul2n == num.sqrt(Dot(h, h));
    assert ul2n * ul2n == Dot(h, h);
    var uz := VerticalSlowness(num, u0, ul2n);
    assert uz == num.sqrt(Radicand(u0, ul2n));
    assert uz * uz == u0 * u0 - ul2n * ul2n;
    var s := SlownessVector3(num, u, v0);
    assert s == Vec3(u.ux, u.uy, uz);
    calc {
      Dot(s, s);
      u.ux * u.ux + u.uy * u.uy + uz * uz;
      Dot(h, h) + uz * uz;
      ul2n * ul2n + (u0 * u0 - ul2n * ul2n);
      u0 * u0;
    }
  }

  /** For an evanescent mode the moveout is the horizontal plane-wave delay alone. */
  lemma EvanescentMoveoutHorizontal(num: Numerics, a: StationArray, sta: string, u: Slowness, v0: real)
    requires v0 != 0.0 && sta in a.stations
    requires 1.0 / v0 < Norm(num, Vec3(u.ux, u.uy, 0.0))
    ensures var r := Moveout(num, a, sta, u, v0);
      r.Ok? && r.value == u.ux * a.stations[sta].x + u.uy * a.stations[sta].y
  {
    var p := a.stations[sta];
    var uz := VerticalSlowness(num, 1.0 / v0, Norm(num, Vec3(u.ux, u.uy, 0.0)));
    assert uz == 0.0;
    assert SlownessVector3(num, u, v0) == Vec3(u.ux, u.uy, uz);
    assert Dot(Vec3(u.ux, u.uy, uz), p) == u.ux * p.x + u.uy * p.y;
  }

  /** geographic_location(sta): the station converted by the coordinate system, or the x() throw. */
  function GeographicLocation<P>(a: StationArray, geographic: (Origin, Vec3) -> P, sta: string): (r: Result<P>)
    ensures r.Ok? <==> sta in a.stations
    ensures r.Ok? ==> r.value == geographic(a.coords, a.stations[sta])
  {
    match X(a, sta)
    case Err(f) => Err(f)
    case Ok(xr) => Ok(geographic(a.coords, xr))
  }
}

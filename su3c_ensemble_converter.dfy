/**
 * SU3CEnsembleConverter: turns a stream of single-channel SU traces, in
 * sensor order 0, 1, 2, 0, 1, 2, ..., into a ThreeComponentEnsemble.  Every
 * trace is tagged with the hang and vang of its channel from the
 * channel_orientation table; every third trace completes a 3C member, which
 * is optionally rotated, given site.lat/site.lon from its UTM coordinates,
 * and corrected for geometric spreading, in that order.
 *
 * The SU reader, the three-channel ThreeComponentSeismogram constructor,
 * rotate(), UTMtoLL and sscanf are not part of this model; they are the
 * fields of an Ops value.  The parameter-file switches become a Config.
 */
module SU3CEnsembleConverter {
  import opened Failures
  import opened MetadataMaps
  import opened Seismograms
  import opened Numerics

  /** hang and vang of one channel as sscanf("%d%lf%lf") reads a table line. */
  datatype OrientationLine = OrientationLine(index: int, hang: real, vang: real)

  /** The switches and values main reads from its parameter file. */
  datatype Config = Config(
    rotation: Option<real>,   // apply_rotation and rotation_angle in degrees
    utmZone: Option<string>,  // convert_utm_to_dd and UTM_zone
    spreading: Option<real>)  // correct_for_geometric_spreading and spreading_power_factor

  datatype Ops = Ops(
    build: (Series, Series, Series) -> Seis3C,
    rotate: (Seis3C, real) -> Seis3C,
    utmToLatLon: (string, real, real) -> (real, real),
    num: Numerics)

  /** Offsets at or below this are left uncorrected. */
  const MinOffset: real := 0.01

  /** The channel_orientation table has one line per component, and no more. */
  const Channels: nat := 3

  /** hang[k] and vang[k], the orientation of channel k. */
  datatype Orientation = Orientation(hang: seq<real>, vang: seq<real>)

  /** The table is accepted when it has three lines indexed 0, 1, 2 in that order. */
  predicate OrientationValid(rows: seq<string>, scan: string -> OrientationLine)
  {
    |rows| == Channels && forall ii :: 0 <= ii < |rows| ==> scan(rows[ii]).index == ii
  }

  /** The loop over the channel_orientation table; a wrong size or index is exit(-1). */
  method ReadOrientation(rows: seq<string>, scan: string -> OrientationLine) returns (r: Result<Orientation>)
    ensures r.Ok? <==> OrientationValid(rows, scan)
    ensures r.Err? ==> r == Exit(-1)
    ensures r.Ok? ==> |r.value.hang| == Channels && |r.value.vang| == Channels
    ensures r.Ok? ==> forall ii :: 0 <= ii < Channels ==>
      r.value.hang[ii] == scan(rows[ii]).hang && r.value.vang[ii] == scan(rows[ii]).vang
  {
    if |rows| != Channels {
      return Exit(-1);
    }
    var hang, vang := [], [];
    var ii := 0;
    while ii < Channels
      invariant 0 <= ii <= Channels && |hang| == ii && |vang| == ii
      invariant forall m :: 0 <= m < ii ==> scan(rows[m]).index == m
      invariant forall m :: 0 <= m < ii ==> hang[m] == scan(rows[m]).hang && vang[m] == scan(rows[m]).vang
    {
      var line := scan(rows[ii]);
      hang, vang := hang + [line.hang], vang + [line.vang];
      if line.index != ii {
        return Exit(-1);
      }
      ii := ii + 1;
    }
    r := Ok(Orientation(hang, vang));
  }

  /** A trace of channel k with its hang and vang posted. */
  function Tagged(t: Series, o: Orientation, k: nat): (r: Series)
    requires k < |o.hang| && k < |o.vang|
    ensures r == t.(md := r.md)
    ensures GetReal(r.md, "hang") == Ok(o.hang[k]) && GetReal(r.md, "vang") == Ok(o.vang[k])
  {
    t.(md := t.md["hang" := RealValue(o.hang[k])]["vang" := RealValue(o.vang[k])])
  }

  /** d3c.rotate(rad(angle)) when rotation is on. */
  function Rotated(d: Seis3C, cfg: Config, ops: Ops): Seis3C
  {
    if cfg.rotation.Some? then ops.rotate(d, Rad(cfg.rotation.value)) else d
  }

  /** With UTM conversion on, rx/ry (easting/northing) become site.lat and site.lon. */
  function Located(d: Seis3C, cfg: Config, ops: Ops): Result<Seis3C>
  {
    if cfg.utmZone.None? then Ok(d)
    else
      var easting := GetReal(d.md, "rx");
      var northing := GetReal(d.md, "ry");
      if easting.Err? || northing.Err? then Throw(MetadataGetError)
      else
        var ll := ops.utmToLatLon(cfg.utmZone.value, northing.value, easting.value);
        Ok(d.(md := d.md["site.lat" := RealValue(ll.0)]["site.lon" := RealValue(ll.1)]))
  }

  /**
   * With the spreading correction on, samples are scaled by |offset|^spow
   * when |offset| > 0.01.  dscal covers the 3*ns values of the 3 x ns
   * matrix, that is every sample.
   */
  function Spread(d: Seis3C, cfg: Config, num: Numerics): Result<Seis3C>
  {
    if cfg.spreading.None? then Ok(d)
    else
      var offset := GetReal(d.md, "offset");
      if offset.Err? then Throw(MetadataGetError)
      else if Abs(offset.value) > MinOffset then
        Ok(d.(u := Scaled(num.pow(Abs(offset.value), cfg.spreading.value), d.u, |d.u|)))
      else Ok(d)
  }

  /** One 3C member from its three channels: rotation, then UTM conversion, then spreading. */
  function Member(t0: Series, t1: Series, t2: Series, o: Orientation, cfg: Config, ops: Ops): Result<Seis3C>
    requires |o.hang| == Channels && |o.vang| == Channels
  {
    var d := Rotated(ops.build(Tagged(t0, o, 0), Tagged(t1, o, 1), Tagged(t2, o, 2)), cfg, ops);
    var located := Located(d, cfg, ops);
    if located.Err? then located else Spread(located.value, cfg, ops.num)
  }

  /** The spreading step changes only the samples, and scales all 3*ns of them by |offset|^spow. */
  lemma SpreadScalesSamples(d: Seis3C, cfg: Config, num: Numerics)
    ensures Spread(d, cfg, num).Err? <==> cfg.spreading.Some? && GetReal(d.md, "offset").Err?
    ensures Spread(d, cfg, num).Ok? ==> Spread(d, cfg, num).value == d.(u := Spread(d, cfg, num).value.u)
    ensures Spread(d, cfg, num).Ok? && Spread(d, cfg, num).value.u != d.u ==>
      cfg.spreading.Some? && Abs(GetReal(d.md, "offset").value) > MinOffset
    ensures cfg.spreading.Some? && GetReal(d.md, "offset").Ok? && Abs(GetReal(d.md, "offset").value) > MinOffset ==>
      var s := num.pow(Abs(GetReal(d.md, "offset").value), cfg.spreading.value);
      forall k :: 0 <= k < |d.u| ==> Spread(d, cfg, num).value.u[k] == s * d.u[k]
  {
  }

  /** Member as a function of the three channels alone, for one table and configuration. */
  function MemberMaker(o: Orientation, cfg: Config, ops: Ops): (Series, Series, Series) -> Result<Seis3C>
    requires |o.hang| == Channels && |o.vang| == Channels
  {
    (t0, t1, t2) => Member(t0, t1, t2, o, cfg, ops)
  }

  /** The member that traces 3j, 3j+1 and 3j+2 make, as channels 0, 1 and 2. */
  function TripleMember(traces: seq<Series>, j: nat, mk: (Series, Series, Series) -> Result<Seis3C>): Result<Seis3C>
    requires 3 * j + 3 <= |traces|
  {
    mk(traces[3 * j], traces[3 * j + 1], traces[3 * j + 2])
  }

  /** The members the first m trace triples make, or the first failure among them. */
  function MembersUpTo(traces: seq<Series>, m: nat, mk: (Series, Series, Series) -> Result<Seis3C>): Result<seq<Seis3C>>
    requires 3 * m <= |traces|
  {
    if m == 0 then Ok([])
    else
      var init := MembersUpTo(traces, m - 1, mk);
      if init.Err? then init
      else
        var d := TripleMember(traces, m - 1, mk);
        if d.Err? then Err(d.failure) else Ok(init.value + [d.value])
  }

  /**
   * Member j of the ensemble is made from traces 3j, 3j+1 and 3j+2, tagged
   * as channels 0, 1 and 2; the result fails exactly when one triple does.
   */
  lemma {:induction false} MembersUpToTriples(traces: seq<Series>, m: nat, mk: (Series, Series, Series) -> Result<Seis3C>)
    requires 3 * m <= |traces|
    ensures MembersUpTo(traces, m, mk).Ok? <==> forall j :: 0 <= j < m ==> TripleMember(traces, j, mk).Ok?
    ensures MembersUpTo(traces, m, mk).Ok? ==>
      var ms := MembersUpTo(traces, m, mk).value;
      && |ms| == m
      && forall j :: 0 <= j < m ==> Ok(ms[j]) == TripleMember(traces, j, mk)
  {
    if m > 0 {
      MembersUpToTriples(traces, m - 1, mk);
    }
  }

  /** Once a triple fails, every longer prefix of triples fails the same way. */
  lemma {:induction false} FailurePersists(traces: seq<Series>, m: nat, m2: nat, mk: (Series, Series, Series) -> Result<Seis3C>)
    requires m <= m2 && 3 * m2 <= |traces|
    requires MembersUpTo(traces, m, mk).Err?
    ensures MembersUpTo(traces, m2, mk) == MembersUpTo(traces, m, mk)
    decreases m2 - m
  {
    if m < m2 {
      FailurePersists(traces, m, m2 - 1, mk);
    }
  }

  /**
   * The body of the read loop at k == 2: build the 3C object from the three
   * tagged channels, rotate it, post site.lat/site.lon, correct spreading.
   */
  method BuildMember(t0: Series, t1: Series, t2: Series, o: Orientation, cfg: Config, ops: Ops) returns (r: Result<Seis3C>)
    requires |o.hang| == Channels && |o.vang| == Channels
    ensures r == Member(t0, t1, t2, o, cfg, ops)
  {
    var d3c := ops.build(Tagged(t0, o, 0), Tagged(t1, o, 1), Tagged(t2, o, 2));
    if cfg.rotation.Some? {
      d3c := ops.rotate(d3c, Rad(cfg.rotation.value));
    }
    var located := Located(d3c, cfg, ops);
    if located.Err? {
      return located;
    }
    r := Spread(located.value, cfg, ops.num);
  }

  lemma ThirdOf(m: nat, k: nat)
    requires k < 3
    ensures (3 * m + k) / 3 == m
  {
  }

  lemma AtMostThird(m: nat, t: nat)
    requires 3 * m <= t
    ensures m <= t / 3
  {
  }

  lemma NextChannel(m: nat, k: nat)
    requires k < 3
    ensures (3 * m + k + 1) % 3 == if k == 2 then 0 else k + 1
  {
  }

  /** The k == 2 step of the read loop: member m joins the members before it, or its failure ends the run. */
  lemma ExtendMembers(traces: seq<Series>, m: nat, members: seq<Seis3C>, mk: (Series, Series, Series) -> Result<Seis3C>)
    requires 3 * m + 3 <= |traces| && MembersUpTo(traces, m, mk) == Ok(members)
    ensures TripleMember(traces, m, mk).Err? ==> MembersUpTo(traces, |traces| / 3, mk) == Err(TripleMember(traces, m, mk).failure)
    ensures TripleMember(traces, m, mk).Ok? ==> MembersUpTo(traces, m + 1, mk) == Ok(members + [TripleMember(traces, m, mk).value])
  {
    if TripleMember(traces, m, mk).Err? {
      AtMostThird(m + 1, |traces|);
      FailurePersists(traces, m + 1, |traces| / 3, mk);
    }
  }

  /**
   * The read loop of main over the traces read before the first empty one:
   * trace n is channel n % 3, and when it is channel 2 the three held
   * channels become a member through mk (BuildMember for the configuration
   * in force).  An empty first read is exit(-1); a member whose metadata
   * lacks rx, ry or offset throws and nothing is written.  Trailing traces
   * that do not complete a triple are dropped.
   */
  method Bundle(traces: seq<Series>, mk: (Series, Series, Series) -> Result<Seis3C>) returns (r: Result<Ensemble3C>)
    ensures |traces| == 0 ==> r == Exit(-1)
    ensures |traces| > 0 ==> r.Ok? == MembersUpTo(traces, |traces| / 3, mk).Ok?
    ensures |traces| > 0 && r.Ok? ==> r.value == Ensemble3C(map[], MembersUpTo(traces, |traces| / 3, mk).value)
    ensures |traces| > 0 && r.Err? ==> r.failure == MembersUpTo(traces, |traces| / 3, mk).failure
  {
    if |traces| == 0 {
      return Exit(-1);
    }
    var members: seq<Seis3C> := [];
    var channels: seq<Series> := [traces[0], traces[0], traces[0]];
    var m := 0;
    var n := 0;
    var k := 0;
    while n < |traces|
      invariant 0 <= n <= |traces| && 0 <= k < 3 && n == 3 * m + k && |channels| == 3
      invariant forall c :: 0 <= c < k ==> channels[c] == traces[3 * m + c]
      invariant MembersUpTo(traces, m, mk) == Ok(members)
    {
      NextChannel(m, k);
      channels := channels[k := traces[n]];
      if k == 2 {
        var d := mk(channels[0], channels[1], channels[2]);
        ExtendMembers(traces, m, members, mk);
        if d.Err? {
          return Err(d.failure);
        }
        members := members + [d.value];
        m := m + 1;
      }
      n := n + 1;
      k := n % 3;
    }
    ThirdOf(m, k);
    r := Ok(Ensemble3C(map[], members));
  }

  /** hang and vang as the table lines give them. */
  function OrientationOf(rows: seq<string>, scan: string -> OrientationLine): (o: Orientation)
    requires |rows| == Channels
    ensures |o.hang| == Channels && |o.vang| == Channels
  {
    Orientation(seq(Channels, ii requires 0 <= ii < Channels => scan(rows[ii]).hang),
                seq(Channels, ii requires 0 <= ii < Channels => scan(rows[ii]).vang))
  }

  /**
   * main after argument and parameter-file handling: the orientation table
   * is checked before any trace is read, then the traces are bundled into
   * one member per complete triple.
   */
  method Convert(rows: seq<string>, scan: string -> OrientationLine, traces: seq<Series>, cfg: Config, ops: Ops)
    returns (r: Result<Ensemble3C>)
    ensures !OrientationValid(rows, scan) ==> r == Exit(-1)
    ensures OrientationValid(rows, scan) && |traces| == 0 ==> r == Exit(-1)
    ensures r.Ok? ==> OrientationValid(rows, scan) && |r.value.members| == |traces| / 3
    ensures r.Ok? ==> forall j :: 0 <= j < |traces| / 3 ==>
      Ok(r.value.members[j]) == TripleMember(traces, j, MemberMaker(OrientationOf(rows, scan), cfg, ops))
    ensures OrientationValid(rows, scan) && |traces| > 0 ==>
      (r.Ok? <==> forall j :: 0 <= j < |traces| / 3 ==>
         TripleMember(traces, j, MemberMaker(OrientationOf(rows, scan), cfg, ops)).Ok?)
  {
    var o := ReadOrientation(rows, scan);
    if o.Err? {
      return Err(o.failure);
    }
    assert o.value == OrientationOf(rows, scan);
    r := Bundle(traces, MemberMaker(o.value, cfg, ops));
    if |traces| > 0 {
      MembersUpToTriples(traces, |traces| / 3, MemberMaker(o.value, cfg, ops));
    }
  }
}

/**
 * PMTimeSeries: a time series of particle-motion ellipses and their error
 * estimates for one band of a three-component multiwavelet bundle, built
 * either sample by sample or by time averages over sliding windows.
 *
 * ComputePMStats (the average of a set of ellipses and its error estimates,
 * done by an older C routine) is a parameter, and so is the windowed
 * ellipse estimate of wavelet iw over a time window.  The ellipse of three
 * complex samples is ParticleMotionEllipse.Analytic.
 */
module PMTimeSeries {
  import opened Failures
  import opened Numerics
  import opened Geometry
  import opened MetadataMaps
  import opened DecimalText
  import opened Seismograms
  import opened MWTWaveform
  import MWTMatrix
  import MWTBundle
  import opened ParticleMotionEllipse
  import ParticleMotionError
  import opened TextTokens

  type PMError = ParticleMotionError.PMError

  /** ComputePMStats: the average ellipse and its errors over a set of estimates. */
  type Stats = seq<Ellipse> -> (Ellipse, PMError)

  /**
   * The windowed ParticleMotionEllipse constructor applied to one wavelet's
   * x, y and z waveforms over a time window (it throws when the window
   * cannot be extracted or the decomposition fails).
   */
  type WindowedEstimate = (Waveform, Waveform, Waveform, TimeWindow) -> Result<Ellipse>

  /** Every field of a PMTimeSeries, as one value. */
  datatype PMValue = PMValue(
    live: bool,
    ns: int,
    dt: real,
    t0: real,
    tref: TimeReference,
    md: Attributes,
    gaps: seq<TimeWindow>,
    pmdata: seq<Ellipse>,
    pmerr: seq<PMError>,
    averagingLength: int,
    f0: real,
    fw: real,
    decfac: int)

  /** The x, y and z waveforms of every wavelet of one band. */
  datatype Components = Components(x: seq<Waveform>, y: seq<Waveform>, z: seq<Waveform>)

  const Up: Vec3 := Vec3(0.0, 0.0, 1.0)

  const SampleBase: string := "PMTimeSeries sample-by-sample constructor:  "
  const AverageBase: string := "PMTimeSeries time averaging constructor:  "

  /** The key under which a derived series records what it holds. */
  const PMDerivedTSType: string := "PMDerivedTSType"

  // The fixed parts of the constructors' error messages.
  const IllegalBand: string := "Illegal request for band="
  const BandRange: string := "band requested must be between 0 and "
  const StartMismatch: string := "Start time mismatch in ComplexTimeSeries components for wavelet="
  const SizeMismatch: string := "Size mismatch in ComplexTimeSeries components for wavelet="
  const TestingAgainst: string := "Testing against ns="
  const WaveletSizes: string := "This set of wavelets has ns=("
  const BundleSize: string := "Bundle size passed = "
  const ExactlyThree: string := "This must be exactly 3 - likely coding error"
  const AvlenTooLong: string := "Averaging length too long for input data segment"
  const SegmentInBand: string := "Data segement in band "
  const IsOnly: string := " is only "
  const SamplesLong: string := " samples long"
  const LessThanAvlen: string := "This less than requested averaging length of "

  function BandMessage(band: int, nb: int): string
  {
    IllegalBand + IntText(band) + "\n" + BandRange + IntText(nb - 1) + "\n"
  }

  function StartTimeMessage(iw: int): string
  {
    StartMismatch + IntText(iw) + "\n"
  }

  /** samprate as posted: 1/dt; a zero dt (an IEEE infinity) is recorded as 0. */
  function Rate(dt: real): real
  {
    if dt == 0.0 then 0.0 else 1.0 / dt
  }

  /** The attribute names the constructors post. */
  const AveragingLengthKey: string := "averaging_length"
  const F0Key: string := "f0"
  const FwKey: string := "fw"
  const DecfacKey: string := "decfac"
  const NsampKey: string := "nsamp"
  const SamprateKey: string := "samprate"

  /** post_attributes_to_metadata: six puts over the inherited header. */
  function Posted(md: Attributes, avlen: int, f0: real, fw: real, decfac: int, ns: int, dt: real): Attributes
  {
    md[AveragingLengthKey := IntValue(avlen)][F0Key := RealValue(f0)][FwKey := RealValue(fw)]
      [DecfacKey := IntValue(decfac)][NsampKey := IntValue(ns)][SamprateKey := RealValue(Rate(dt))]
  }

  /** The posted attributes read back with their types. */
  lemma PostedReadable(md: Attributes, avlen: int, f0: real, fw: real, decfac: int, ns: int, dt: real)
    ensures var h := Posted(md, avlen, f0, fw, decfac, ns, dt);
      && GetInt(h, AveragingLengthKey) == Ok(avlen)
      && GetReal(h, F0Key) == Ok(f0)
      && GetReal(h, FwKey) == Ok(fw)
      && GetInt(h, DecfacKey) == Ok(decfac)
      && GetInt(h, NsampKey) == Ok(ns)
      && (dt != 0.0 ==> GetReal(h, SamprateKey) == Ok(1.0 / dt))
  {
  }

  predicate MatricesValid(b: MWTBundle.Bundle)
  {
    forall k :: 0 <= k < |b.mwtdata| ==> MWTMatrix.Valid(b.mwtdata[k])
  }

  /**
   * The component load loop over wavelets 0..n-1: for each wavelet the x, y
   * and z members in turn, the first lookup that throws ending the load.
   */
  function Loaded(b: MWTBundle.Bundle, band: int, n: nat): (r: Result<Components>)
    requires MatricesValid(b)
    ensures r.Ok? ==> |r.value.x| == n && |r.value.y| == n && |r.value.z| == n
  {
    if n == 0 then Ok(Components([], [], []))
    else
      match Loaded(b, band, n - 1)
      case Err(f) => Err(f)
      case Ok(p) =>
        match MWTBundle.Element(b, band, n - 1, 0)
        case Err(f) => Err(f)
        case Ok(wx) =>
          match MWTBundle.Element(b, band, n - 1, 1)
          case Err(f) => Err(f)
          case Ok(wy) =>
            match MWTBundle.Element(b, band, n - 1, 2)
            case Err(f) => Err(f)
            case Ok(wz) => Ok(Components(p.x + [wx], p.y + [wy], p.z + [wz]))
  }

  /** Every x, y and z lookup of wavelets 0..n-1 of the band succeeds. */
  predicate AllFound(b: MWTBundle.Bundle, band: int, n: int)
    requires MatricesValid(b)
  {
    forall iw :: 0 <= iw < n ==> Found(b, band, iw)
  }

  /** The x, y and z lookups of wavelet iw of the band all succeed. */
  predicate Found(b: MWTBundle.Bundle, band: int, iw: int)
    requires MatricesValid(b)
  {
    && MWTBundle.Element(b, band, iw, 0).Ok?
    && MWTBundle.Element(b, band, iw, 1).Ok?
    && MWTBundle.Element(b, band, iw, 2).Ok?
  }

  /**
   * The load succeeds exactly when every x, y and z lookup of wavelets
   * 0..n-1 does, and then holds the looked-up waveforms in wavelet order.
   */
  lemma LoadedInOrder(b: MWTBundle.Bundle, band: int, n: nat)
    requires MatricesValid(b)
    ensures var r := Loaded(b, band, n);
      && (r.Ok? <==> AllFound(b, band, n))
      && (r.Ok? ==> forall iw :: 0 <= iw < n ==>
            && MWTBundle.Element(b, band, iw, 0) == Ok(r.value.x[iw])
            && MWTBundle.Element(b, band, iw, 1) == Ok(r.value.y[iw])
            && MWTBundle.Element(b, band, iw, 2) == Ok(r.value.z[iw]))
  {
    LoadedIffAllFound(b, band, n);
    LoadedHoldsLookups(b, band, n);
    if Loaded(b, band, n).Ok? {
      forall iw | 0 <= iw < n
        ensures HoldsLookups(b, band, Loaded(b, band, n).value, iw)
      {
      }
    }
  }

  lemma {:induction false} LoadedIffAllFound(b: MWTBundle.Bundle, band: int, n: nat)
    requires MatricesValid(b)
    ensures Loaded(b, band, n).Ok? <==> AllFound(b, band, n)
  {
    if n > 0 {
      LoadedIffAllFound(b, band, n - 1);
      LoadedStep(b, band, n);
      assert AllFound(b, band, n) <==> AllFound(b, band, n - 1) && Found(b, band, n - 1);
    }
  }

  /** Loading n wavelets succeeds when loading n - 1 does and all three lookups of wavelet n - 1 do. */
  lemma LoadedStep(b: MWTBundle.Bundle, band: int, n: nat)
    requires MatricesValid(b) && n > 0
    ensures Loaded(b, band, n).Ok? <==> Loaded(b, band, n - 1).Ok? && Found(b, band, n - 1)
  {
  }

  /** Wavelet iw of c holds the x, y and z waveforms the bundle's lookups return. */
  predicate HoldsLookups(b: MWTBundle.Bundle, band: int, c: Components, iw: int)
    requires MatricesValid(b) && 0 <= iw < |c.x| && iw < |c.y| && iw < |c.z|
  {
    && MWTBundle.Element(b, band, iw, 0) == Ok(c.x[iw])
    && MWTBundle.Element(b, band, iw, 1) == Ok(c.y[iw])
    && MWTBundle.Element(b, band, iw, 2) == Ok(c.z[iw])
  }

  lemma {:induction false} LoadedHoldsLookups(b: MWTBundle.Bundle, band: int, n: nat)
    requires MatricesValid(b)
    ensures Loaded(b, band, n).Ok? ==> forall iw :: 0 <= iw < n ==> HoldsLookups(b, band, Loaded(b, band, n).value, iw)
  {
    if n > 0 && Loaded(b, band, n).Ok? {
      LoadedHoldsLookups(b, band, n - 1);
      var p := Loaded(b, band, n - 1).value;
      var c := Loaded(b, band, n).value;
      assert c.x == p.x + [MWTBundle.Element(b, band, n - 1, 0).value];
      assert c.y == p.y + [MWTBundle.Element(b, band, n - 1, 1).value];
      assert c.z == p.z + [MWTBundle.Element(b, band, n - 1, 2).value];
      forall iw | 0 <= iw < n
        ensures HoldsLookups(b, band, c, iw)
      {
        if iw < n - 1 {
          assert HoldsLookups(b, band, p, iw);
        }
      }
    }
  }

  /** A waveform a valid bundle hands out holds its ns samples. */
  lemma ElementWellFormed(b: MWTBundle.Bundle, band: int, iw: int, m: int)
    requires MatricesValid(b)
    requires MWTBundle.Element(b, band, iw, m).Ok?
    ensures WaveformWellFormed(MWTBundle.Element(b, band, iw, m).value)
  {
  }

  // ---------------------------------------------------------------------
  // Sample-by-sample construction
  // ---------------------------------------------------------------------

  function SampleSizeMessage(iw: int, ns: int, c: Components): string
    requires 0 <= iw < |c.x| && iw < |c.y| && iw < |c.z|
  {
    SizeMismatch + IntText(iw) + "\n"
      + TestingAgainst + IntText(ns) + "\n"
      + WaveletSizes + IntText(c.x[iw].ns) + "," + IntText(c.y[iw].ns)
      + "," + IntText(c.z[iw].ns) + ")\n"
  }

  predicate SameShape(c: Components)
  {
    |c.x| == |c.y| == |c.z|
  }

  /** Wavelet iw passes the sample-by-sample check against wavelet 0's x component. */
  predicate SampleCongruent(c: Components, ns: int, t0: real, iw: int)
    requires SameShape(c) && 0 <= iw < |c.x|
  {
    c.x[iw].ns == ns && c.y[iw].ns == ns && c.z[iw].ns == ns
      && c.x[iw].t0 == t0 && c.y[iw].t0 == t0 && c.z[iw].t0 == t0
  }

  /** The message of the first wavelet below n that fails the check, if any. */
  function SampleCheck(c: Components, ns: int, t0: real, n: int): (r: Option<string>)
    requires SameShape(c) && 0 <= n <= |c.x|
    ensures r.None? <==> forall iw :: 0 <= iw < n ==> SampleCongruent(c, ns, t0, iw)
  {
    if n == 0 then None
    else
      match SampleCheck(c, ns, t0, n - 1)
      case Some(msg) => Some(msg)
      case None =>
        var iw := n - 1;
        if c.x[iw].ns != ns || c.y[iw].ns != ns || c.z[iw].ns != ns then
          assert !SampleCongruent(c, ns, t0, iw);
          Some(SampleSizeMessage(iw, ns, c))
        else if c.x[iw].t0 != t0 || c.y[iw].t0 != t0 || c.z[iw].t0 != t0 then
          assert !SampleCongruent(c, ns, t0, iw);
          Some(StartTimeMessage(iw))
        else
          assert SampleCongruent(c, ns, t0, iw);
          None
  }

  /** Every component of every wavelet holds at least ns samples. */
  predicate HasSamples(c: Components, ns: int)
  {
    SameShape(c)
      && forall iw :: 0 <= iw < |c.x| ==> ns <= |c.x[iw].s| && ns <= |c.y[iw].s| && ns <= |c.z[iw].s|
  }

  /** Components that pass the check hold ns samples each, wavelet 0's x component among them. */
  lemma CongruentHasSamples(c: Components, ns: int, t0: real)
    requires SameShape(c) && |c.x| > 0
    requires forall iw :: 0 <= iw < |c.x| ==>
      WaveformWellFormed(c.x[iw]) && WaveformWellFormed(c.y[iw]) && WaveformWellFormed(c.z[iw])
    requires forall iw :: 0 <= iw < |c.x| ==> SampleCongruent(c, ns, t0, iw)
    ensures ns >= 0 && HasSamples(c, ns)
  {
    assert SampleCongruent(c, ns, t0, 0);
    forall iw | 0 <= iw < |c.x|
      ensures ns <= |c.x[iw].s| && ns <= |c.y[iw].s| && ns <= |c.z[iw].s|
    {
      assert SampleCongruent(c, ns, t0, iw);
    }
  }

  /** The per-wavelet ellipses at sample i. */
  function SampleEllipses(num: Numerics, c: Components, n: int, i: int): (pmi: seq<Ellipse>)
    requires HasSamples(c, n) && 0 <= i < n
    ensures |pmi| == |c.x|
  {
    seq(|c.x|, iw requires 0 <= iw < |c.x| => Analytic(num, c.x[iw].s[i], c.y[iw].s[i], c.z[iw].s[i], Up))
  }

  /** The averages and errors over the wavelet estimates at each of samples 0..ns-1. */
  function SampleData(num: Numerics, stats: Stats, c: Components, ns: int): (r: (seq<Ellipse>, seq<PMError>))
    requires ns >= 0 && HasSamples(c, ns)
    ensures |r.0| == ns && |r.1| == ns
  {
    (seq(ns, i requires 0 <= i < ns => stats(SampleEllipses(num, c, ns, i)).0),
     seq(ns, i requires 0 <= i < ns => stats(SampleEllipses(num, c, ns, i)).1))
  }

  /** The value the sample-by-sample constructor builds from loaded components. */
  function SampleSeries(num: Numerics, stats: Stats, md: Attributes, c: Components,
                        f0: real, fw: real, dt: real, decfac: int): (r: Result<PMValue>)
    requires SameShape(c) && |c.x| > 0
    requires forall iw :: 0 <= iw < |c.x| ==>
      WaveformWellFormed(c.x[iw]) && WaveformWellFormed(c.y[iw]) && WaveformWellFormed(c.z[iw])
  {
    var ns := c.x[0].ns;
    var t0 := c.x[0].t0;
    match SampleCheck(c, ns, t0, |c.x|)
    case Some(msg) => Throw(SampleBase + msg)
    case None =>
      CongruentHasSamples(c, ns, t0);
      var data := SampleData(num, stats, c, ns);
      Ok(PMValue(true, ns, dt, t0, c.x[0].tref, Posted(md, 1, f0, fw, decfac, ns, dt), [],
                 data.0, data.1, 1, f0, fw, decfac))
  }

  /** PMTimeSeries(d, band), as a value. */
  function SampleBySample(num: Numerics, stats: Stats, b: MWTBundle.Bundle, band: int): (r: Result<PMValue>)
    requires MWTBundle.Valid(b) && MWTBundle.Consistent(b)
  {
    if band >= b.nb then Throw(SampleBase + BandMessage(band, b.nb))
    else
      MWTBundle.GettersSucceedOnValidBands(b, band);
      match MWTBundle.F0(b, band)
      case Err(f) => Err(f)
      case Ok(f0) =>
        var fw := MWTBundle.Fw(b, band).value;
        var dt := MWTBundle.SampleInterval(b, band).value;
        var decfac := MWTBundle.DecFac(b, band).value;
        assert MWTMatrix.Valid(b.mwtdata[0]);
        assert b.mwtdata[0].nbands == b.nb && b.mwtdata[0].nwavelets == b.nw;
        match Loaded(b, band, b.nw)
        case Err(f) => Err(f)
        case Ok(c) =>
          LoadedWellFormed(b, band, b.nw, c);
          SampleSeries(num, stats, b.md, c, f0, fw, dt, decfac)
  }

  lemma LoadedWellFormed(b: MWTBundle.Bundle, band: int, n: nat, c: Components)
    requires MatricesValid(b) && Loaded(b, band, n) == Ok(c)
    ensures forall iw :: 0 <= iw < |c.x| ==>
      WaveformWellFormed(c.x[iw]) && WaveformWellFormed(c.y[iw]) && WaveformWellFormed(c.z[iw])
  {
    LoadedInOrder(b, band, n);
    forall iw | 0 <= iw < |c.x|
      ensures WaveformWellFormed(c.x[iw]) && WaveformWellFormed(c.y[iw]) && WaveformWellFormed(c.z[iw])
    {
      ElementWellFormed(b, band, iw, 0);
      ElementWellFormed(b, band, iw, 1);
      ElementWellFormed(b, band, iw, 2);
    }
  }

  // ---------------------------------------------------------------------
  // Time-averaged construction
  // ---------------------------------------------------------------------

  /** The transform's decimation factors are positive. */
  predicate PositiveDecimation(b: MWTBundle.Bundle)
  {
    forall m, k :: 0 <= m < |b.mwtdata| && 0 <= k < |b.mwtdata[m].d| ==> b.mwtdata[m].d[k].decimationFactor >= 1
  }

  function MemberCountMessage(n: int): string
  {
    BundleSize + IntText(n) + "\n" + ExactlyThree + "\n"
  }

  function AverageSizeMessage(iw: int): string
  {
    SizeMismatch + IntText(iw) + "\n"
  }

  function AvlenMessage(band: int, span: int, avlen: int): string
  {
    AvlenTooLong + "\n"
      + SegmentInBand + IntText(band) + IsOnly + IntText(span) + SamplesLong + "\n"
      + LessThanAvlen + IntText(avlen) + "\n"
  }

  const TooShortMessage: string :=
    "Data window is too short for specified parameters - zero length PMTimeSeries result"

  /** Wavelet iw passes the time-averaged check: its components agree in length and start at t0. */
  predicate AverageCongruent(c: Components, t0: real, iw: int)
    requires SameShape(c) && 0 <= iw < |c.x|
  {
    c.x[iw].ns == c.y[iw].ns && c.y[iw].ns == c.z[iw].ns
      && c.x[iw].t0 == t0 && c.y[iw].t0 == t0 && c.z[iw].t0 == t0
  }

  /** The message of the first wavelet below n that fails the time-averaged check, if any. */
  function AverageCheck(c: Components, t0: real, n: int): (r: Option<string>)
    requires SameShape(c) && 0 <= n <= |c.x|
    ensures r.None? <==> forall iw :: 0 <= iw < n ==> AverageCongruent(c, t0, iw)
  {
    if n == 0 then None
    else
      match AverageCheck(c, t0, n - 1)
      case Some(msg) => Some(msg)
      case None =>
        var iw := n - 1;
        if c.x[iw].ns != c.y[iw].ns || c.y[iw].ns != c.z[iw].ns then
          assert !AverageCongruent(c, t0, iw);
          Some(AverageSizeMessage(iw))
        else if c.x[iw].t0 != t0 || c.y[iw].t0 != t0 || c.z[iw].t0 != t0 then
          assert !AverageCongruent(c, t0, iw);
          Some(StartTimeMessage(iw))
        else
          assert AverageCongruent(c, t0, iw);
          None
  }

  /**
   * nsbandrequested: the whole number of sample intervals between a
   * waveform's start and end times.  A zero dt (a division by zero in the
   * source) is taken as ns - 1.
   */
  function SampleSpan(w: Waveform): int
  {
    if w.dt == 0.0 then w.ns - 1 else CTrunc((EndTime(w.t0, w.ns, w.dt) - w.t0) / w.dt)
  }

  /** The span is always one less than the sample count. */
  lemma SampleSpanIsNsMinusOne(w: Waveform)
    ensures SampleSpan(w) == w.ns - 1
  {
    if w.dt != 0.0 {
      var q := (EndTime(w.t0, w.ns, w.dt) - w.t0) / w.dt;
      assert EndTime(w.t0, w.ns, w.dt) - w.t0 == (w.ns - 1) as real * w.dt;
      assert q == (w.ns - 1) as real;
    }
  }

  /**
   * The windows the averaging loop accepts: starting at t and stepping by dt,
   * at most `remaining` of them, stopping at the first whose end is not
   * before endt.
   */
  function AcceptedWindows(t: real, dt: real, len: real, endt: real, remaining: int): (ws: seq<TimeWindow>)
    decreases remaining
  {
    if remaining <= 0 || !(t + len < endt) then []
    else [TimeWindow(t, t + len)] + AcceptedWindows(t + dt, dt, len, endt, remaining - 1)
  }

  /**
   * Window k starts k steps after t, every accepted window ends before endt,
   * and when fewer than `remaining` are accepted the next one would not.
   */
  lemma AcceptedWindowsShape(t: real, dt: real, len: real, endt: real, remaining: int)
    ensures var ws := AcceptedWindows(t, dt, len, endt, remaining);
      && (remaining >= 0 ==> |ws| <= remaining)
      && (remaining < 0 ==> ws == [])
      && (forall k :: 0 <= k < |ws| ==> ws[k] == TimeWindow(t + k as real * dt, t + k as real * dt + len))
      && (forall k :: 0 <= k < |ws| ==> ws[k].end < endt)
      && (|ws| < remaining ==> !(t + |ws| as real * dt + len < endt))
  {
    AcceptedWindowsCount(t, dt, len, endt, remaining);
    AcceptedWindowsAt(t, dt, len, endt, remaining);
  }

  /** At most `remaining` windows are accepted, and when fewer are the next one would end too late. */
  lemma {:induction false} AcceptedWindowsCount(t: real, dt: real, len: real, endt: real, remaining: int)
    ensures var ws := AcceptedWindows(t, dt, len, endt, remaining);
      && (remaining >= 0 ==> |ws| <= remaining)
      && (remaining < 0 ==> ws == [])
      && (|ws| < remaining ==> !(t + |ws| as real * dt + len < endt))
    decreases remaining
  {
    if remaining > 0 && t + len < endt {
      AcceptedWindowsCount(t + dt, dt, len, endt, remaining - 1);
      var rest := AcceptedWindows(t + dt, dt, len, endt, remaining - 1);
      StepsShift(t, dt, |rest| + 1);
    }
  }

  /** Window k of the accepted ones starts k steps after t and ends before endt. */
  lemma {:induction false} AcceptedWindowsAt(t: real, dt: real, len: real, endt: real, remaining: int)
    ensures forall k :: 0 <= k < |AcceptedWindows(t, dt, len, endt, remaining)| ==>
      && AcceptedWindows(t, dt, len, endt, remaining)[k] == KthWindow(t, dt, len, k)
      && AcceptedWindows(t, dt, len, endt, remaining)[k].end < endt
    decreases remaining
  {
    var ws := AcceptedWindows(t, dt, len, endt, remaining);
    if remaining > 0 && t + len < endt {
      AcceptedWindowsAt(t + dt, dt, len, endt, remaining - 1);
      var rest := AcceptedWindows(t + dt, dt, len, endt, remaining - 1);
      assert ws == [TimeWindow(t, t + len)] + rest;
      forall k | 1 <= k < |ws|
        ensures ws[k] == KthWindow(t, dt, len, k) && ws[k].end < endt
      {
        assert ws[k] == rest[k - 1] == KthWindow(t + dt, dt, len, k - 1);
        StepsShift(t, dt, k);
      }
    }
  }

  /** k - 1 steps after t + dt is k steps after t. */
  lemma StepsShift(t: real, dt: real, k: int)
    ensures t + dt + (k - 1) as real * dt == t + k as real * dt
  {
  }

  /** The per-wavelet windowed ellipses for wavelets 0..n-1, the first that throws ending the loop. */
  function WindowEllipses(est: WindowedEstimate, c: Components, n: nat, tw: TimeWindow): (r: Result<seq<Ellipse>>)
    requires SameShape(c) && n <= |c.x|
    ensures r.Ok? ==> |r.value| == n && forall iw :: 0 <= iw < n ==> est(c.x[iw], c.y[iw], c.z[iw], tw) == Ok(r.value[iw])
    ensures r.Ok? <==> forall iw :: 0 <= iw < n ==> est(c.x[iw], c.y[iw], c.z[iw], tw).Ok?
  {
    if n == 0 then Ok([])
    else
      match WindowEllipses(est, c, n - 1, tw)
      case Err(f) => Err(f)
      case Ok(p) =>
        match est(c.x[n - 1], c.y[n - 1], c.z[n - 1], tw)
        case Err(f) => Err(f)
        case Ok(e) => Ok(p + [e])
  }

  /** The averages and errors over a run of windows, in window order. */
  function WindowAverages(est: WindowedEstimate, stats: Stats, c: Components,
                          ws: seq<TimeWindow>): (r: Result<(seq<Ellipse>, seq<PMError>)>)
    requires SameShape(c)
  {
    if ws == [] then Ok(([], []))
    else
      var last := ws[|ws| - 1];
      match WindowAverages(est, stats, c, ws[..|ws| - 1])
      case Err(f) => Err(f)
      case Ok(p) =>
        match WindowEllipses(est, c, |c.x|, last)
        case Err(f) => Err(f)
        case Ok(pmi) =>
          var avgErr := stats(pmi);
          Ok((p.0 + [avgErr.0], p.1 + [avgErr.1]))
  }

  /**
   * Averaging succeeds exactly when every window's estimates do, and then
   * holds one average and one error per window: the statistics of that
   * window's ellipses, in window order.
   */
  lemma {:induction false} WindowAveragesInOrder(est: WindowedEstimate, stats: Stats, c: Components, ws: seq<TimeWindow>)
    requires SameShape(c)
    ensures var r := WindowAverages(est, stats, c, ws);
      && (r.Ok? <==> forall k :: 0 <= k < |ws| ==> WindowEllipses(est, c, |c.x|, ws[k]).Ok?)
      && (r.Ok? ==> |r.value.0| == |ws| && |r.value.1| == |ws|)
      && (r.Ok? ==> forall k :: 0 <= k < |ws| ==>
            && r.value.0[k] == stats(WindowEllipses(est, c, |c.x|, ws[k]).value).0
            && r.value.1[k] == stats(WindowEllipses(est, c, |c.x|, ws[k]).value).1)
    decreases |ws|
  {
    if ws != [] {
      var init := ws[..|ws| - 1];
      WindowAveragesInOrder(est, stats, c, init);
      assert forall k :: 0 <= k < |init| ==> init[k] == ws[k];
    }
  }

  /** The value the time-averaged constructor builds from loaded components. */
  function AveragedSeries(est: WindowedEstimate, stats: Stats, md: Attributes,
                          c: Components, band: int, avlen: int, f0: real, fw: real, decfac: int): (r: Result<PMValue>)
    requires SameShape(c) && |c.x| > 0 && decfac != 0
  {
    var x0 := c.x[0];
    match AverageCheck(c, x0.t0, |c.x|)
    case Some(msg) => Throw(AverageBase + msg)
    case None =>
      var span := SampleSpan(x0);
      if avlen > span then Throw(AverageBase + AvlenMessage(band, span, avlen))
      else AveragedWindows(est, stats, md, c, avlen, f0, fw, decfac)
  }

  /**
   * The averaging stage: windows of avlen parent samples, centred time
   * base, ns = x[0].ns / decfac steps of dt0 * decfac at most (C division,
   * so a negative decfac leaves no step at all).
   */
  function AveragedWindows(est: WindowedEstimate, stats: Stats, md: Attributes,
                           c: Components, avlen: int, f0: real, fw: real, decfac: int): (r: Result<PMValue>)
    requires SameShape(c) && |c.x| > 0 && decfac != 0
  {
    var x0 := c.x[0];
    match WindowAverages(est, stats, c, ParentWindows(x0, avlen, decfac))
    case Err(f) => Err(f)
    case Ok(avgs) =>
      Averaged(md, avgs.0, avgs.1, Seconds(x0.dt0, decfac), x0.t0 + Seconds(x0.dt0, avlen) / 2.0,
               x0.tref, avlen, f0, fw, decfac)
  }

  /**
   * The windows accepted over parent waveform x0: avlen parent samples long,
   * decfac parent samples apart, the first centred half a length in, at most
   * ns/decfac of them.
   */
  function ParentWindows(x0: Waveform, avlen: int, decfac: int): seq<TimeWindow>
    requires decfac != 0
  {
    var len := Seconds(x0.dt0, avlen);
    AcceptedWindows(x0.t0 + len / 2.0, Seconds(x0.dt0, decfac), len, EndTime(x0.t0, x0.ns, x0.dt), CDiv(x0.ns, decfac))
  }

  /** A length in parent samples converted to seconds. */
  function Seconds(dtparent: real, n: int): real
  {
    dtparent * n as real
  }

  /** The series over the accepted windows' statistics; none at all is an error. */
  function Averaged(md: Attributes, pmdata: seq<Ellipse>, pmerr: seq<PMError>, dt: real, t0: real,
                    tref: TimeReference, avlen: int, f0: real, fw: real, decfac: int): (r: Result<PMValue>)
  {
    if |pmdata| <= 0 then Throw(AverageBase + TooShortMessage)
    else
      var ns := |pmdata|;
      Ok(PMValue(true, ns, dt, t0, tref, Posted(md, avlen, f0, fw, decfac, ns, dt), [],
                 pmdata, pmerr, avlen, f0, fw, decfac))
  }

  /** ns = x[0].ns / decfac with timesteps, and so decfac, equal to 0. */
  const DecimationByZero: string := "ns / decfac with decfac == 0"

  /** PMTimeSeries(d, band, timesteps, avlen), as a value. */
  function TimeAveraged(est: WindowedEstimate, stats: Stats, b: MWTBundle.Bundle,
                        band: int, timesteps: int, avlen: int): (r: Result<PMValue>)
    requires MWTBundle.Valid(b) && MWTBundle.Consistent(b) && PositiveDecimation(b)
  {
    if |b.mwtdata| != 3 then Throw(AverageBase + MemberCountMessage(|b.mwtdata|))
    else if band >= b.nb then Throw(AverageBase + BandMessage(band, b.nb))
    else
      MWTBundle.GettersSucceedOnValidBands(b, band);
      match MWTBundle.F0(b, band)
      case Err(f) => Err(f)
      case Ok(f0) =>
        var fw := MWTBundle.Fw(b, band).value;
        var decfac := MWTBundle.DecFac(b, band).value * timesteps;
        assert MWTMatrix.Valid(b.mwtdata[0]);
        assert b.mwtdata[0].nbands == b.nb && b.mwtdata[0].nwavelets == b.nw;
        assert MWTBundle.DecFac(b, band).value >= 1 by {
          assert MWTMatrix.FlatIndex(b.mwtdata[0], band, 0) < |b.mwtdata[0].d|;
        }
        match Loaded(b, band, b.nw)
        case Err(f) => Err(f)
        case Ok(c) =>
          if decfac == 0 then Err(Undefined(DecimationByZero))
          else AveragedSeries(est, stats, b.md, c, band, avlen, f0, fw, decfac)
  }

  // ---------------------------------------------------------------------
  // What the constructors promise
  // ---------------------------------------------------------------------

  /** A built series: live, one ellipse and one error estimate per sample, no gaps. */
  predicate Shaped(v: PMValue)
  {
    v.live && v.ns >= 0 && |v.pmdata| == v.ns && |v.pmerr| == v.ns && v.gaps == []
  }

  /** The sample-by-sample constructor's error cases. */
  lemma SampleBySampleErrors(num: Numerics, stats: Stats, b: MWTBundle.Bundle, band: int)
    requires MWTBundle.Valid(b) && MWTBundle.Consistent(b)
    ensures band >= b.nb ==> SampleBySample(num, stats, b, band) == Throw(SampleBase + BandMessage(band, b.nb))
    ensures band < 0 ==> SampleBySample(num, stats, b, band).Err?
    ensures 0 <= band < b.nb && |b.mwtdata| < 3 ==>
      SampleBySample(num, stats, b, band) == Throw(MWTBundle.MemberRangeMessage(|b.mwtdata|, |b.mwtdata|))
  {
    MWTBundle.GettersSucceedOnValidBands(b, band);
    if 0 <= band < b.nb && |b.mwtdata| < 3 {
      assert MWTMatrix.Valid(b.mwtdata[0]);
      assert b.nw > 0;
      assert |b.mwtdata| > 0;
      if |b.mwtdata| == 1 {
        assert MWTBundle.Element(b, band, 0, 1) == Throw(MWTBundle.MemberRangeMessage(1, 1));
      } else {
        assert MWTBundle.Element(b, band, 0, 2) == Throw(MWTBundle.MemberRangeMessage(2, 2));
      }
      LoadedFailurePersists(b, band, 1, b.nw);
    }
  }

  /**
   * A sample-by-sample series has one sample per input sample: sample i is
   * the statistics of the nw analytic ellipses of the components' samples i,
   * and the band's f0, fw, decimation and sample interval are recorded.
   */
  lemma SampleBySampleShape(num: Numerics, stats: Stats, b: MWTBundle.Bundle, band: int)
    requires MWTBundle.Valid(b) && MWTBundle.Consistent(b)
    requires SampleBySample(num, stats, b, band).Ok?
    ensures var v := SampleBySample(num, stats, b, band).value;
      && Shaped(v) && v.averagingLength == 1
      && 0 <= band < b.nb && |b.mwtdata| >= 3
      && v.f0 == MWTBundle.F0(b, band).value && v.fw == MWTBundle.Fw(b, band).value
      && v.decfac == MWTBundle.DecFac(b, band).value && v.dt == MWTBundle.SampleInterval(b, band).value
      && GetInt(v.md, NsampKey) == Ok(v.ns) && GetInt(v.md, AveragingLengthKey) == Ok(1)
      && Loaded(b, band, b.nw).Ok? && HasSamples(Loaded(b, band, b.nw).value, v.ns)
      && |Loaded(b, band, b.nw).value.x| > 0
      && (forall i :: 0 <= i < v.ns ==>
            v.pmdata[i] == stats(SampleEllipses(num, Loaded(b, band, b.nw).value, v.ns, i)).0
            && v.pmerr[i] == stats(SampleEllipses(num, Loaded(b, band, b.nw).value, v.ns, i)).1)
  {
    MWTBundle.GettersSucceedOnValidBands(b, band);
    SampleBySampleErrors(num, stats, b, band);
    assert MWTMatrix.Valid(b.mwtdata[0]);
    var c := Loaded(b, band, b.nw).value;
    LoadedWellFormed(b, band, b.nw, c);
    var f0, fw := MWTBundle.F0(b, band).value, MWTBundle.Fw(b, band).value;
    var dt, decfac := MWTBundle.SampleInterval(b, band).value, MWTBundle.DecFac(b, band).value;
    assert SampleBySample(num, stats, b, band) == SampleSeries(num, stats, b.md, c, f0, fw, dt, decfac);
    SampleSeriesShape(num, stats, b.md, c, f0, fw, dt, decfac);
  }

  /** The series built from loaded components: one sample per input sample, with the band's parameters. */
  lemma SampleSeriesShape(num: Numerics, stats: Stats, md: Attributes, c: Components,
                          f0: real, fw: real, dt: real, decfac: int)
    requires SameShape(c) && |c.x| > 0
    requires forall iw :: 0 <= iw < |c.x| ==>
      WaveformWellFormed(c.x[iw]) && WaveformWellFormed(c.y[iw]) && WaveformWellFormed(c.z[iw])
    requires SampleSeries(num, stats, md, c, f0, fw, dt, decfac).Ok?
    ensures var v := SampleSeries(num, stats, md, c, f0, fw, dt, decfac).value;
      && Shaped(v) && v.averagingLength == 1
      && v.f0 == f0 && v.fw == fw && v.decfac == decfac && v.dt == dt
      && GetInt(v.md, NsampKey) == Ok(v.ns) && GetInt(v.md, AveragingLengthKey) == Ok(1)
      && HasSamples(c, v.ns)
      && (forall i :: 0 <= i < v.ns ==>
            v.pmdata[i] == stats(SampleEllipses(num, c, v.ns, i)).0
            && v.pmerr[i] == stats(SampleEllipses(num, c, v.ns, i)).1)
  {
    var v := SampleSeries(num, stats, md, c, f0, fw, dt, decfac).value;
    CongruentHasSamples(c, c.x[0].ns, c.x[0].t0);
    PostedReadable(md, 1, f0, fw, decfac, v.ns, dt);
  }

  /** The time-averaging constructor's error cases, in the order it checks them. */
  lemma TimeAveragedErrors(est: WindowedEstimate, stats: Stats, b: MWTBundle.Bundle,
                           band: int, timesteps: int, avlen: int)
    requires MWTBundle.Valid(b) && MWTBundle.Consistent(b) && PositiveDecimation(b)
    ensures |b.mwtdata| != 3 ==>
      TimeAveraged(est, stats, b, band, timesteps, avlen) == Throw(AverageBase + MemberCountMessage(|b.mwtdata|))
    ensures |b.mwtdata| == 3 && band >= b.nb ==>
      TimeAveraged(est, stats, b, band, timesteps, avlen) == Throw(AverageBase + BandMessage(band, b.nb))
    ensures band < 0 ==> TimeAveraged(est, stats, b, band, timesteps, avlen).Err?
    ensures |b.mwtdata| == 3 && 0 <= band < b.nb && timesteps == 0 && b.nw >= 0 && Loaded(b, band, b.nw).Ok? ==>
      TimeAveraged(est, stats, b, band, timesteps, avlen) == Err(Undefined(DecimationByZero))
    ensures timesteps < 0 ==> TimeAveraged(est, stats, b, band, timesteps, avlen).Err?
  {
    MWTBundle.GettersSucceedOnValidBands(b, band);
    if timesteps < 0 && |b.mwtdata| == 3 && 0 <= band < b.nb && Loaded(b, band, b.nw).Ok? {
      assert MWTMatrix.Valid(b.mwtdata[0]);
      assert MWTBundle.DecFac(b, band).value >= 1 by {
        assert MWTMatrix.FlatIndex(b.mwtdata[0], band, 0) < |b.mwtdata[0].d|;
      }
      var c := Loaded(b, band, b.nw).value;
      LoadedWellFormed(b, band, b.nw, c);
      var decfac := MWTBundle.DecFac(b, band).value * timesteps;
      NegativeDecimationMul(MWTBundle.DecFac(b, band).value, timesteps);
      NoStepNoSeries(est, stats, b.md, c, band, avlen, MWTBundle.F0(b, band).value, MWTBundle.Fw(b, band).value, decfac);
    }
  }

  lemma NegativeDecimationMul(d: int, timesteps: int)
    requires d >= 1 && timesteps < 0
    ensures d * timesteps < 0
  {
  }

  /**
   * With a negative decfac, ns = x[0].ns / decfac is at most 0, the loop
   * accepts no window, and the constructor throws the too-short error when
   * the checks before it pass.
   */
  lemma NoStepNoSeries(est: WindowedEstimate, stats: Stats, md: Attributes,
                       c: Components, band: int, avlen: int, f0: real, fw: real, decfac: int)
    requires SameShape(c) && |c.x| > 0 && decfac < 0 && c.x[0].ns >= 0
    ensures AveragedSeries(est, stats, md, c, band, avlen, f0, fw, decfac).Err?
    ensures AveragedWindows(est, stats, md, c, avlen, f0, fw, decfac) == Throw(AverageBase + TooShortMessage)
  {
    var x0 := c.x[0];
    assert CDiv(x0.ns, decfac) <= 0;
    assert ParentWindows(x0, avlen, decfac) == [];
  }

  /** The k-th averaging window: k steps of dt after t0, len long. */
  function KthWindow(t0: real, dt: real, len: real, k: int): TimeWindow
  {
    TimeWindow(t0 + k as real * dt, t0 + k as real * dt + len)
  }

  /** Sample k of v is the statistics of the windowed ellipses over window tw. */
  predicate AveragedOver(est: WindowedEstimate, stats: Stats, c: Components, v: PMValue, k: int, tw: TimeWindow)
    requires SameShape(c) && 0 <= k < |v.pmdata| && k < |v.pmerr|
  {
    && WindowEllipses(est, c, |c.x|, tw).Ok?
    && v.pmdata[k] == stats(WindowEllipses(est, c, |c.x|, tw).value).0
    && v.pmerr[k] == stats(WindowEllipses(est, c, |c.x|, tw).value).1
  }

  /** The k-th window of the averaging loop of v over parent waveform x0. */
  function WindowOf(v: PMValue, x0: Waveform, avlen: int, k: int): TimeWindow
  {
    KthWindow(v.t0, v.dt, Seconds(x0.dt0, avlen), k)
  }

  /** The averaging stage: its windows, time base and sample count. */
  lemma AveragedWindowsShape(est: WindowedEstimate, stats: Stats, md: Attributes,
                             c: Components, avlen: int, f0: real, fw: real, decfac: int)
    requires SameShape(c) && |c.x| > 0 && decfac >= 1
    requires AveragedWindows(est, stats, md, c, avlen, f0, fw, decfac).Ok?
    ensures var v := AveragedWindows(est, stats, md, c, avlen, f0, fw, decfac).value;
      var x0 := c.x[0];
      && Shaped(v) && 1 <= v.ns <= CDiv(x0.ns, decfac)
      && v.averagingLength == avlen && v.decfac == decfac
      && v.dt == x0.dt0 * decfac as real
      && v.t0 == x0.t0 + x0.dt0 * avlen as real / 2.0
      && forall k :: 0 <= k < v.ns ==>
           && WindowOf(v, x0, avlen, k).end < EndTime(x0.t0, x0.ns, x0.dt)
           && AveragedOver(est, stats, c, v, k, WindowOf(v, x0, avlen, k))
  {
    AveragedWindowsTimeBase(est, stats, md, c, avlen, f0, fw, decfac);
    AveragedWindowsSamples(est, stats, md, c, avlen, f0, fw, decfac);
  }

  /** The averaged series' time base: one sample per accepted window, decfac parent samples apart, centred. */
  lemma AveragedWindowsTimeBase(est: WindowedEstimate, stats: Stats, md: Attributes,
                                c: Components, avlen: int, f0: real, fw: real, decfac: int)
    requires SameShape(c) && |c.x| > 0 && decfac >= 1
    requires AveragedWindows(est, stats, md, c, avlen, f0, fw, decfac).Ok?
    ensures var v := AveragedWindows(est, stats, md, c, avlen, f0, fw, decfac).value;
      var x0 := c.x[0];
      && Shaped(v) && 1 <= v.ns <= CDiv(x0.ns, decfac)
      && v.ns == |ParentWindows(x0, avlen, decfac)|
      && v.averagingLength == avlen && v.decfac == decfac
      && v.dt == x0.dt0 * decfac as real
      && v.t0 == x0.t0 + x0.dt0 * avlen as real / 2.0
  {
    var x0 := c.x[0];
    var ws := ParentWindows(x0, avlen, decfac);
    ParentWindowsShape(x0, avlen, decfac);
    var avgs := WindowAverages(est, stats, c, ws).value;
    WindowAveragesInOrder(est, stats, c, ws);
    AveragedFields(md, avgs.0, avgs.1, Seconds(x0.dt0, decfac), x0.t0 + Seconds(x0.dt0, avlen) / 2.0,
                   x0.tref, avlen, f0, fw, decfac);
  }

  /** Sample k of the averaged series is the statistics over the k-th parent window, which ends before the data. */
  lemma AveragedWindowsSamples(est: WindowedEstimate, stats: Stats, md: Attributes,
                               c: Components, avlen: int, f0: real, fw: real, decfac: int)
    requires SameShape(c) && |c.x| > 0 && decfac >= 1
    requires AveragedWindows(est, stats, md, c, avlen, f0, fw, decfac).Ok?
    ensures var v := AveragedWindows(est, stats, md, c, avlen, f0, fw, decfac).value;
      var x0 := c.x[0];
      && |v.pmdata| == v.ns && |v.pmerr| == v.ns
      && forall k :: 0 <= k < v.ns ==>
           && WindowOf(v, x0, avlen, k).end < EndTime(x0.t0, x0.ns, x0.dt)
           && AveragedOver(est, stats, c, v, k, WindowOf(v, x0, avlen, k))
  {
    var x0 := c.x[0];
    var ws := ParentWindows(x0, avlen, decfac);
    AveragedWindowsTimeBase(est, stats, md, c, avlen, f0, fw, decfac);
    ParentWindowsShape(x0, avlen, decfac);
    WindowAveragesInOrder(est, stats, c, ws);
    var v := AveragedWindows(est, stats, md, c, avlen, f0, fw, decfac).value;
    AveragesOverWindows(est, stats, c, ws, v, x0, avlen, EndTime(x0.t0, x0.ns, x0.dt));
  }

  /** The parent windows are the k-th windows from the centred start, each ending before the data, at most ns/decfac. */
  lemma ParentWindowsShape(x0: Waveform, avlen: int, decfac: int)
    requires decfac >= 1
    ensures var ws := ParentWindows(x0, avlen, decfac);
      && |ws| <= (if CDiv(x0.ns, decfac) < 0 then 0 else CDiv(x0.ns, decfac))
      && forall k :: 0 <= k < |ws| ==>
           && ws[k] == KthWindow(x0.t0 + Seconds(x0.dt0, avlen) / 2.0, Seconds(x0.dt0, decfac), Seconds(x0.dt0, avlen), k)
           && ws[k].end < EndTime(x0.t0, x0.ns, x0.dt)
  {
    var len := Seconds(x0.dt0, avlen);
    AcceptedWindowsShape(x0.t0 + len / 2.0, Seconds(x0.dt0, decfac), len, EndTime(x0.t0, x0.ns, x0.dt), CDiv(x0.ns, decfac));
  }

  /** The fields Averaged sets from its arguments. */
  lemma AveragedFields(md: Attributes, pmdata: seq<Ellipse>, pmerr: seq<PMError>, dt: real, t0: real,
                       tref: TimeReference, avlen: int, f0: real, fw: real, decfac: int)
    requires |pmdata| > 0 && |pmerr| == |pmdata|
    ensures Averaged(md, pmdata, pmerr, dt, t0, tref, avlen, f0, fw, decfac).Ok?
    ensures var v := Averaged(md, pmdata, pmerr, dt, t0, tref, avlen, f0, fw, decfac).value;
      && Shaped(v) && v.ns == |pmdata| && v.pmdata == pmdata && v.pmerr == pmerr
      && v.dt == dt && v.t0 == t0 && v.averagingLength == avlen && v.decfac == decfac
  {
  }

  /** Sample k of v averages over window k of ws, when ws are v's windows and v holds their averages. */
  lemma AveragesOverWindows(est: WindowedEstimate, stats: Stats, c: Components, ws: seq<TimeWindow>,
                            v: PMValue, x0: Waveform, avlen: int, endt: real)
    requires SameShape(c) && WindowAverages(est, stats, c, ws).Ok?
    requires v.pmdata == WindowAverages(est, stats, c, ws).value.0
    requires v.pmerr == WindowAverages(est, stats, c, ws).value.1
    requires |v.pmdata| == |ws| && |v.pmerr| == |ws|
    requires forall k :: 0 <= k < |ws| ==> ws[k] == WindowOf(v, x0, avlen, k) && ws[k].end < endt
    ensures forall k :: 0 <= k < |ws| ==>
      && WindowOf(v, x0, avlen, k).end < endt
      && AveragedOver(est, stats, c, v, k, WindowOf(v, x0, avlen, k))
  {
    WindowAveragesInOrder(est, stats, c, ws);
    forall k | 0 <= k < |ws|
      ensures AveragedOver(est, stats, c, v, k, WindowOf(v, x0, avlen, k))
    {
      assert ws[k] == WindowOf(v, x0, avlen, k);
    }
  }

  /**
   * A time-averaged series: decimation is the band's times timesteps, the
   * time base is the parent's centred on the first window, the averaging
   * length fits in the data, and sample k is the statistics of the windowed
   * ellipses over the k-th window, which starts k steps after t0 and ends
   * before the data do; there are at least one and at most ns/decfac samples.
   */
  lemma TimeAveragedShape(est: WindowedEstimate, stats: Stats, b: MWTBundle.Bundle,
                          band: int, timesteps: int, avlen: int)
    requires MWTBundle.Valid(b) && MWTBundle.Consistent(b) && PositiveDecimation(b)
    requires TimeAveraged(est, stats, b, band, timesteps, avlen).Ok?
    ensures var v := TimeAveraged(est, stats, b, band, timesteps, avlen).value;
      && 0 <= band < b.nb && |b.mwtdata| == 3
      && v.decfac == MWTBundle.DecFac(b, band).value * timesteps && v.decfac >= 1
      && Loaded(b, band, b.nw).Ok? && |Loaded(b, band, b.nw).value.x| > 0
      && var c := Loaded(b, band, b.nw).value;
      && avlen <= c.x[0].ns - 1
      && SameShape(c)
      && AveragedWindows(est, stats, b.md, c, avlen, v.f0, v.fw, v.decfac).Ok?
      && v == AveragedWindows(est, stats, b.md, c, avlen, v.f0, v.fw, v.decfac).value
  {
    MWTBundle.GettersSucceedOnValidBands(b, band);
    TimeAveragedErrors(est, stats, b, band, timesteps, avlen);
    assert MWTMatrix.Valid(b.mwtdata[0]);
    assert MWTBundle.DecFac(b, band).value >= 1 by {
      assert MWTMatrix.FlatIndex(b.mwtdata[0], band, 0) < |b.mwtdata[0].d|;
    }
    var c := Loaded(b, band, b.nw).value;
    var f0, fw := MWTBundle.F0(b, band).value, MWTBundle.Fw(b, band).value;
    var decfac := MWTBundle.DecFac(b, band).value * timesteps;
    assert TimeAveraged(est, stats, b, band, timesteps, avlen) == AveragedSeries(est, stats, b.md, c, band, avlen, f0, fw, decfac);
    AveragedSeriesIsWindows(est, stats, b.md, c, band, avlen, f0, fw, decfac);
  }

  /** A series the time-averaging constructor accepts is the averaging stage's, with avlen inside the data. */
  lemma AveragedSeriesIsWindows(est: WindowedEstimate, stats: Stats, md: Attributes,
                                c: Components, band: int, avlen: int, f0: real, fw: real, decfac: int)
    requires SameShape(c) && |c.x| > 0 && decfac >= 1
    requires AveragedSeries(est, stats, md, c, band, avlen, f0, fw, decfac).Ok?
    ensures avlen <= c.x[0].ns - 1
    ensures AveragedSeries(est, stats, md, c, band, avlen, f0, fw, decfac) == AveragedWindows(est, stats, md, c, avlen, f0, fw, decfac)
    ensures var v := AveragedWindows(est, stats, md, c, avlen, f0, fw, decfac).value;
      v.f0 == f0 && v.fw == fw && v.decfac == decfac
  {
    SampleSpanIsNsMinusOne(c.x[0]);
  }

  // ---------------------------------------------------------------------
  // The first failure of a loop is the loop's outcome
  // ---------------------------------------------------------------------

  lemma {:induction false} LoadedFailurePersists(b: MWTBundle.Bundle, band: int, m: nat, n: nat)
    requires MatricesValid(b) && m <= n && Loaded(b, band, m).Err?
    ensures Loaded(b, band, n) == Loaded(b, band, m)
    decreases n
  {
    if n > m {
      LoadedFailurePersists(b, band, m, n - 1);
    }
  }

  lemma {:induction false} SampleCheckFailurePersists(c: Components, ns: int, t0: real, m: int, n: int)
    requires SameShape(c) && 0 <= m <= n <= |c.x| && SampleCheck(c, ns, t0, m).Some?
    ensures SampleCheck(c, ns, t0, n) == SampleCheck(c, ns, t0, m)
    decreases n
  {
    if n > m {
      SampleCheckFailurePersists(c, ns, t0, m, n - 1);
    }
  }

  lemma {:induction false} AverageCheckFailurePersists(c: Components, t0: real, m: int, n: int)
    requires SameShape(c) && 0 <= m <= n <= |c.x| && AverageCheck(c, t0, m).Some?
    ensures AverageCheck(c, t0, n) == AverageCheck(c, t0, m)
    decreases n
  {
    if n > m {
      AverageCheckFailurePersists(c, t0, m, n - 1);
    }
  }

  lemma {:induction false} WindowEllipsesFailurePersists(est: WindowedEstimate, c: Components, m: nat, n: nat, tw: TimeWindow)
    requires SameShape(c) && m <= n <= |c.x| && WindowEllipses(est, c, m, tw).Err?
    ensures WindowEllipses(est, c, n, tw) == WindowEllipses(est, c, m, tw)
    decreases n
  {
    if n > m {
      WindowEllipsesFailurePersists(est, c, m, n - 1, tw);
    }
  }

  lemma {:induction false} WindowAveragesFailurePersists(est: WindowedEstimate, stats: Stats, c: Components,
                                                         ws: seq<TimeWindow>, more: seq<TimeWindow>)
    requires SameShape(c) && WindowAverages(est, stats, c, ws).Err?
    ensures WindowAverages(est, stats, c, ws + more) == WindowAverages(est, stats, c, ws)
    decreases |more|
  {
    if more == [] {
      assert ws + more == ws;
    } else {
      var init := more[..|more| - 1];
      WindowAveragesFailurePersists(est, stats, c, ws, init);
      assert (ws + more)[..|ws + more| - 1] == ws + init;
    }
  }

  // ---------------------------------------------------------------------
  // The constructors' loops
  // ---------------------------------------------------------------------

  /** The component load loop: x, y and z waveforms of wavelets 0..n-1 of one band. */
  method LoadComponents(b: MWTBundle.Bundle, band: int, n: nat) returns (r: Result<Components>)
    requires MatricesValid(b)
    ensures r == Loaded(b, band, n)
  {
    var x: seq<Waveform> := [];
    var y: seq<Waveform> := [];
    var z: seq<Waveform> := [];
    var iw := 0;
    while iw < n
      invariant 0 <= iw <= n
      invariant Loaded(b, band, iw) == Ok(Components(x, y, z))
    {
      var wx := MWTBundle.Element(b, band, iw, 0);
      if wx.Err? {
        LoadedFailurePersists(b, band, iw + 1, n);
        return Err(wx.failure);
      }
      var wy := MWTBundle.Element(b, band, iw, 1);
      if wy.Err? {
        LoadedFailurePersists(b, band, iw + 1, n);
        return Err(wy.failure);
      }
      var wz := MWTBundle.Element(b, band, iw, 2);
      if wz.Err? {
        LoadedFailurePersists(b, band, iw + 1, n);
        return Err(wz.failure);
      }
      x, y, z := x + [wx.value], y + [wy.value], z + [wz.value];
      iw := iw + 1;
    }
    r := Ok(Components(x, y, z));
  }

  /** The sample-by-sample sanity check loop. */
  method CheckSamples(c: Components, ns: int, t0: real) returns (r: Option<string>)
    requires SameShape(c)
    ensures r == SampleCheck(c, ns, t0, |c.x|)
  {
    var iw := 0;
    while iw < |c.x|
      invariant 0 <= iw <= |c.x|
      invariant SampleCheck(c, ns, t0, iw) == None
    {
      if c.x[iw].ns != ns || c.y[iw].ns != ns || c.z[iw].ns != ns {
        SampleCheckFailurePersists(c, ns, t0, iw + 1, |c.x|);
        return Some(SampleSizeMessage(iw, ns, c));
      }
      if c.x[iw].t0 != t0 || c.y[iw].t0 != t0 || c.z[iw].t0 != t0 {
        SampleCheckFailurePersists(c, ns, t0, iw + 1, |c.x|);
        return Some(StartTimeMessage(iw));
      }
      iw := iw + 1;
    }
    r := None;
  }

  /** The time-averaged sanity check loop. */
  method CheckAverages(c: Components, t0: real) returns (r: Option<string>)
    requires SameShape(c)
    ensures r == AverageCheck(c, t0, |c.x|)
  {
    var iw := 0;
    while iw < |c.x|
      invariant 0 <= iw <= |c.x|
      invariant AverageCheck(c, t0, iw) == None
    {
      if c.x[iw].ns != c.y[iw].ns || c.y[iw].ns != c.z[iw].ns {
        AverageCheckFailurePersists(c, t0, iw + 1, |c.x|);
        return Some(AverageSizeMessage(iw));
      }
      if c.x[iw].t0 != t0 || c.y[iw].t0 != t0 || c.z[iw].t0 != t0 {
        AverageCheckFailurePersists(c, t0, iw + 1, |c.x|);
        return Some(StartTimeMessage(iw));
      }
      iw := iw + 1;
    }
    r := None;
  }

  /** The per-sample loop: the nw analytic ellipses at sample i, then their statistics. */
  method SampleLoop(num: Numerics, stats: Stats, c: Components, ns: int)
      returns (pmdata: seq<Ellipse>, pmerr: seq<PMError>)
    requires ns >= 0 && HasSamples(c, ns)
    ensures (pmdata, pmerr) == SampleData(num, stats, c, ns)
  {
    pmdata, pmerr := [], [];
    var i := 0;
    while i < ns
      invariant 0 <= i <= ns
      invariant |pmdata| == i && |pmerr| == i
      invariant forall k :: 0 <= k < i ==> pmdata[k] == stats(SampleEllipses(num, c, ns, k)).0
      invariant forall k :: 0 <= k < i ==> pmerr[k] == stats(SampleEllipses(num, c, ns, k)).1
    {
      var pmi: seq<Ellipse> := [];
      var iw := 0;
      while iw < |c.x|
        invariant 0 <= iw <= |c.x|
        invariant pmi == SampleEllipses(num, c, ns, i)[..iw]
      {
        pmi := pmi + [Analytic(num, c.x[iw].s[i], c.y[iw].s[i], c.z[iw].s[i], Up)];
        iw := iw + 1;
      }
      assert pmi == SampleEllipses(num, c, ns, i);
      var avgErr := stats(pmi);
      pmdata, pmerr := pmdata + [avgErr.0], pmerr + [avgErr.1];
      i := i + 1;
    }
    ghost var d := SampleData(num, stats, c, ns);
    assert pmdata == d.0;
    assert pmerr == d.1;
  }

  /** The windowed ellipse of every wavelet over one window. */
  method EstimateWindow(est: WindowedEstimate, c: Components, tw: TimeWindow) returns (r: Result<seq<Ellipse>>)
    requires SameShape(c)
    ensures r == WindowEllipses(est, c, |c.x|, tw)
  {
    var pmi: seq<Ellipse> := [];
    var iw := 0;
    while iw < |c.x|
      invariant 0 <= iw <= |c.x|
      invariant WindowEllipses(est, c, iw, tw) == Ok(pmi)
    {
      var e := est(c.x[iw], c.y[iw], c.z[iw], tw);
      if e.Err? {
        WindowEllipsesFailurePersists(est, c, iw + 1, |c.x|, tw);
        return Err(e.failure);
      }
      pmi := pmi + [e.value];
      iw := iw + 1;
    }
    r := Ok(pmi);
  }

  /** One more accepted window: the next window is accepted while fewer than `remaining` are and it ends before endt. */
  lemma AcceptedWindowsStep(t: real, dt: real, len: real, endt: real, remaining: int)
    requires remaining > 0 && t + len < endt
    ensures AcceptedWindows(t, dt, len, endt, remaining)
      == [TimeWindow(t, t + len)] + AcceptedWindows(t + dt, dt, len, endt, remaining - 1)
  {
  }

  /** Once the windows still to come are none, the windows taken are all of them. */
  lemma AcceptedWindowsExhausted(all: seq<TimeWindow>, ws: seq<TimeWindow>, t: real, dt: real, len: real, endt: real,
                                  remaining: int)
    requires all == ws + AcceptedWindows(t, dt, len, endt, remaining)
    requires remaining <= 0 || !(t + len < endt)
    ensures all == ws
  {
    assert AcceptedWindows(t, dt, len, endt, remaining) == [];
    assert ws + [] == ws;
  }

  /** The windows still to come, less the one just accepted. */
  lemma AcceptedWindowsAdvance(all: seq<TimeWindow>, ws: seq<TimeWindow>, t: real, dt: real, len: real, endt: real,
                                remaining: int, t': real, remaining': int)
    requires all == ws + AcceptedWindows(t, dt, len, endt, remaining)
    requires remaining > 0 && t + len < endt
    requires t' == t + dt && remaining' == remaining - 1
    ensures all == (ws + [TimeWindow(t, t + len)]) + AcceptedWindows(t', dt, len, endt, remaining')
  {
    AcceptedWindowsStep(t, dt, len, endt, remaining);
    assert ws + ([TimeWindow(t, t + len)] + AcceptedWindows(t + dt, dt, len, endt, remaining - 1))
      == (ws + [TimeWindow(t, t + len)]) + AcceptedWindows(t + dt, dt, len, endt, remaining - 1);
  }

  /** Averaging over one more window appends its statistics, or fails as its estimate does. */
  lemma WindowAveragesExtend(est: WindowedEstimate, stats: Stats, c: Components, ws: seq<TimeWindow>, tw: TimeWindow,
                             pmdata: seq<Ellipse>, pmerr: seq<PMError>)
    requires SameShape(c) && WindowAverages(est, stats, c, ws) == Ok((pmdata, pmerr))
    ensures var e := WindowEllipses(est, c, |c.x|, tw);
      && (e.Err? ==> WindowAverages(est, stats, c, ws + [tw]) == Err(e.failure))
      && (e.Ok? ==> WindowAverages(est, stats, c, ws + [tw])
                      == Ok((pmdata + [stats(e.value).0], pmerr + [stats(e.value).1])))
  {
    assert (ws + [tw])[..|ws|] == ws;
  }

  /** One pass of the averaging loop's body: the statistics of one more window appended, or its estimate's error. */
  method AverageWindow(est: WindowedEstimate, stats: Stats, c: Components, ghost ws: seq<TimeWindow>,
                       pmdata: seq<Ellipse>, pmerr: seq<PMError>, tw: TimeWindow)
      returns (r: Result<(seq<Ellipse>, seq<PMError>)>)
    requires SameShape(c) && WindowAverages(est, stats, c, ws) == Ok((pmdata, pmerr))
    ensures r == WindowAverages(est, stats, c, ws + [tw])
  {
    WindowAveragesExtend(est, stats, c, ws, tw, pmdata, pmerr);
    var pmi := EstimateWindow(est, c, tw);
    if pmi.Err? {
      return Err(pmi.failure);
    }
    var avgErr := stats(pmi.value);
    r := Ok((pmdata + [avgErr.0], pmerr + [avgErr.1]));
  }

  /**
   * One pass of the averaging loop over an accepted window: a failure is
   * the result of averaging over all the windows, a success extends the
   * windows averaged so far by this one.
   */
  method AverageStep(est: WindowedEstimate, stats: Stats, c: Components, ghost all: seq<TimeWindow>,
                     ghost ws: seq<TimeWindow>, pmdata: seq<Ellipse>, pmerr: seq<PMError>,
                     t: real, dt: real, len: real, endt: real, ghost left: int)
      returns (next: Result<(seq<Ellipse>, seq<PMError>)>)
    requires SameShape(c) && WindowAverages(est, stats, c, ws) == Ok((pmdata, pmerr))
    requires all == ws + AcceptedWindows(t, dt, len, endt, left) && left > 0 && t + len < endt
    ensures next.Err? ==> next == WindowAverages(est, stats, c, all)
    ensures next.Ok? ==> next == WindowAverages(est, stats, c, ws + [TimeWindow(t, t + len)])
    ensures all == (ws + [TimeWindow(t, t + len)]) + AcceptedWindows(t + dt, dt, len, endt, left - 1)
  {
    var tw := TimeWindow(t, t + len);
    AcceptedWindowsAdvance(all, ws, t, dt, len, endt, left, t + dt, left - 1);
    next := AverageWindow(est, stats, c, ws, pmdata, pmerr, tw);
    if next.Err? {
      WindowAveragesFailurePersists(est, stats, c, ws + [tw], AcceptedWindows(t + dt, dt, len, endt, left - 1));
    }
  }

  /**
   * The averaging loop: windows of length len starting at t0 and every dt,
   * at most ns0 of them, until a window reaches endt.
   */
  method AverageLoop(est: WindowedEstimate, stats: Stats, c: Components,
                     t0: real, dt: real, len: real, endt: real, ns0: int)
      returns (r: Result<(seq<Ellipse>, seq<PMError>)>)
    requires SameShape(c)
    ensures r == WindowAverages(est, stats, c, AcceptedWindows(t0, dt, len, endt, ns0))
  {
    ghost var all := AcceptedWindows(t0, dt, len, endt, ns0);
    var pmdata: seq<Ellipse> := [];
    var pmerr: seq<PMError> := [];
    ghost var ws: seq<TimeWindow> := [];
    var i := 0;
    var t := t0;
    ghost var left := ns0;
    assert all == ws + AcceptedWindows(t, dt, len, endt, left);
    while i < ns0
      invariant 0 <= i && (i <= ns0 || i == 0) && left == ns0 - i
      invariant all == ws + AcceptedWindows(t, dt, len, endt, left)
      invariant WindowAverages(est, stats, c, ws) == Ok((pmdata, pmerr))
    {
      var tw := TimeWindow(t, t + len);
      if !(tw.end < endt) {
        break;
      }
      var next := AverageStep(est, stats, c, all, ws, pmdata, pmerr, t, dt, len, endt, left);
      if next.Err? {
        return next;
      }
      pmdata, pmerr := next.value.0, next.value.1;
      ws := ws + [tw];
      i := i + 1;
      left := left - 1;
      t := t + dt;
    }
    AcceptedWindowsExhausted(all, ws, t, dt, len, endt, left);
    r := Ok((pmdata, pmerr));
  }

  /** The time-averaging constructor's work after the components are loaded. */
  method AveragedBuild(est: WindowedEstimate, stats: Stats, md: Attributes, c: Components,
                       band: int, avlen: int, f0: real, fw: real, decfac: int) returns (r: Result<PMValue>)
    requires SameShape(c) && |c.x| > 0 && decfac != 0
    ensures r == AveragedSeries(est, stats, md, c, band, avlen, f0, fw, decfac)
  {
    var x0 := c.x[0];
    var check := CheckAverages(c, x0.t0);
    if check.Some? {
      return Throw(AverageBase + check.value);
    }
    var span := SampleSpan(x0);
    if avlen > span {
      return Throw(AverageBase + AvlenMessage(band, span, avlen));
    }
    r := AveragedWindowsBuild(est, stats, md, c, avlen, f0, fw, decfac);
  }

  method AveragedWindowsBuild(est: WindowedEstimate, stats: Stats, md: Attributes, c: Components,
                              avlen: int, f0: real, fw: real, decfac: int) returns (r: Result<PMValue>)
    requires SameShape(c) && |c.x| > 0 && decfac != 0
    ensures r == AveragedWindows(est, stats, md, c, avlen, f0, fw, decfac)
  {
    var x0 := c.x[0];
    var dtparent := x0.dt0;
    var dt := Seconds(dtparent, decfac);
    var ns0 := CDiv(x0.ns, decfac);
    var timeAvlen := Seconds(dtparent, avlen);
    var t0 := x0.t0 + timeAvlen / 2.0;
    var avgs := AverageLoop(est, stats, c, t0, dt, timeAvlen, EndTime(x0.t0, x0.ns, x0.dt), ns0);
    if avgs.Err? {
      return Err(avgs.failure);
    }
    r := Averaged(md, avgs.value.0, avgs.value.1, dt, t0, x0.tref, avlen, f0, fw, decfac);
  }

  // ---------------------------------------------------------------------
  // Accessors, zero_gaps, derived series and output, as values
  // ---------------------------------------------------------------------

  const EllipseRequest: string := "PMTimeSeries::ellipse method:  request for sample number "
  const OutsideRange: string := " is outside data range of "
  const ErrorsRequest: string := "PMTimeSeries::errors method:  request for sample number "

  function EllipseRangeMessage(i: int, size: int): string
  {
    EllipseRequest + IntText(i) + OutsideRange + IntText(size) + "\n"
  }

  /** ellipse(i): the ellipse at sample i, or an error outside the stored data. */
  function EllipseOf(v: PMValue, i: int): (r: Result<Ellipse>)
    ensures r.Ok? <==> 0 <= i < |v.pmdata|
    ensures r.Ok? ==> r.value == v.pmdata[i]
    ensures r.Err? ==> r.failure == Thrown(EllipseRangeMessage(i, |v.pmdata|))
  {
    if i < 0 || i >= |v.pmdata| then Throw(EllipseRangeMessage(i, |v.pmdata|)) else Ok(v.pmdata[i])
  }

  function ErrorsRangeMessage(i: int, size: int): string
  {
    ErrorsRequest + IntText(i) + OutsideRange + IntText(size) + "\n"
  }

  /** The sample range [istart, iend] zero_gaps clears for gap g, or None when g misses the series. */
  function GapIndices(v: PMValue, g: TimeWindow, nint: real -> int): Option<(int, int)>
    requires v.dt != 0.0
  {
    var tsend := EndTime(v.t0, v.ns, v.dt);
    if g.end < v.t0 || g.start > tsend then None
    else
      var istart := if g.start < v.t0 then 0 else nint((g.start - v.t0) / v.dt);
      var iend := if g.end > tsend then v.ns - 1 else nint((g.end - v.t0) / v.dt);
      Some((istart, iend))
  }

  /** Every index zero_gaps touches lies inside the series. */
  lemma GapIndicesInRange(v: PMValue, g: TimeWindow, nint: real -> int)
    requires v.dt > 0.0 && RoundsToNearest(nint)
    requires GapIndices(v, g, nint).Some?
    ensures 0 <= GapIndices(v, g, nint).value.0 && GapIndices(v, g, nint).value.1 <= v.ns - 1
  {
    if g.start >= v.t0 {
      QuotientNonNegative(g.start - v.t0, v.dt);
      NearestOfNonNegative(nint, (g.start - v.t0) / v.dt);
    }
    if g.end <= EndTime(v.t0, v.ns, v.dt) {
      QuotientAtMost(g.end - v.t0, v.dt, (v.ns - 1) as real);
      NearestAtMost(nint, (g.end - v.t0) / v.dt, v.ns - 1);
    }
  }

  lemma QuotientNonNegative(a: real, d: real)
    requires a >= 0.0 && d > 0.0
    ensures a / d >= 0.0
  {
    var x := a / d;
    assert x * d == a;
  }

  lemma QuotientAtMost(a: real, d: real, hi: real)
    requires d > 0.0 && a <= hi * d
    ensures a / d <= hi
  {
    var x := a / d;
    assert x * d == a;
  }

  lemma NearestOfNonNegative(nint: real -> int, x: real)
    requires RoundsToNearest(nint) && x >= 0.0
    ensures nint(x) >= 0
  {
    assert Abs(nint(x) as real - x) <= 0.5;
  }

  lemma NearestAtMost(nint: real -> int, x: real, n: int)
    requires RoundsToNearest(nint) && x <= n as real
    ensures nint(x) <= n
  {
    assert Abs(nint(x) as real - x) <= 0.5;
  }

  /** The sequence with entries lo..hi replaced by z. */
  function Cleared<T>(d: seq<T>, z: T, lo: int, hi: int): (r: seq<T>)
    ensures |r| == |d|
  {
    seq(|d|, j requires 0 <= j < |d| => if lo <= j <= hi then z else d[j])
  }

  /** The effect of zero_gaps' loop body for one gap. */
  function ZeroedGap(w: PMValue, g: TimeWindow, nint: real -> int): (r: PMValue)
    requires w.dt != 0.0
  {
    match GapIndices(w, g, nint)
    case None => w
    case Some(span) =>
      w.(pmdata := Cleared(w.pmdata, ParticleMotionEllipse.Zero(), span.0, span.1),
         pmerr := Cleared(w.pmerr, ParticleMotionError.Zero(), span.0, span.1))
  }

  /** The effect of zero_gaps for the gaps gs, in order, on the samples of v. */
  function ZeroedBy(v: PMValue, gs: seq<TimeWindow>, nint: real -> int): (r: PMValue)
    requires v.dt != 0.0
    ensures r.(pmdata := v.pmdata, pmerr := v.pmerr) == v
    ensures |r.pmdata| == |v.pmdata| && |r.pmerr| == |v.pmerr|
  {
    if gs == [] then v
    else ZeroedGap(ZeroedBy(v, gs[..|gs| - 1], nint), gs[|gs| - 1], nint)
  }

  function Zeroed(v: PMValue, nint: real -> int): PMValue
    requires v.dt != 0.0
  {
    ZeroedBy(v, v.gaps, nint)
  }

  /** Sample j lies inside the index range of one of the gaps gs. */
  predicate InGap(v: PMValue, gs: seq<TimeWindow>, nint: real -> int, j: int)
    requires v.dt != 0.0
  {
    exists k :: 0 <= k < |gs| && GapIndices(v, gs[k], nint).Some?
      && GapIndices(v, gs[k], nint).value.0 <= j <= GapIndices(v, gs[k], nint).value.1
  }

  /** zero_gaps clears exactly the samples inside a gap and keeps every other sample. */
  lemma {:induction false} ZeroedBySamples(v: PMValue, gs: seq<TimeWindow>, nint: real -> int)
    requires v.dt != 0.0
    ensures forall j :: 0 <= j < |v.pmdata| ==>
      ZeroedBy(v, gs, nint).pmdata[j] == (if InGap(v, gs, nint, j) then ParticleMotionEllipse.Zero() else v.pmdata[j])
    ensures forall j :: 0 <= j < |v.pmerr| ==>
      ZeroedBy(v, gs, nint).pmerr[j] == (if InGap(v, gs, nint, j) then ParticleMotionError.Zero() else v.pmerr[j])
    decreases |gs|
  {
    if gs != [] {
      var init := gs[..|gs| - 1];
      ZeroedBySamples(v, init, nint);
      assert GapIndices(ZeroedBy(v, init, nint), gs[|gs| - 1], nint) == GapIndices(v, gs[|gs| - 1], nint);
      forall j | 0 <= j < |v.pmdata| + |v.pmerr|
        ensures InGap(v, gs, nint, j) <==>
          (InGap(v, init, nint, j)
           || (GapIndices(v, gs[|gs| - 1], nint).Some?
               && GapIndices(v, gs[|gs| - 1], nint).value.0 <= j <= GapIndices(v, gs[|gs| - 1], nint).value.1))
      {
        InGapLast(v, gs, nint, j);
      }
    }
  }

  /** A sample is in one of the gaps exactly when it is in one of the earlier gaps or in the last. */
  lemma InGapLast(v: PMValue, gs: seq<TimeWindow>, nint: real -> int, j: int)
    requires v.dt != 0.0 && gs != []
    ensures var last := GapIndices(v, gs[|gs| - 1], nint);
      InGap(v, gs, nint, j) <==>
        (InGap(v, gs[..|gs| - 1], nint, j) || (last.Some? && last.value.0 <= j <= last.value.1))
  {
    var init := gs[..|gs| - 1];
    if InGap(v, init, nint, j) {
      var k :| 0 <= k < |init| && GapIndices(v, init[k], nint).Some?
        && GapIndices(v, init[k], nint).value.0 <= j <= GapIndices(v, init[k], nint).value.1;
      assert gs[k] == init[k];
    }
    if InGap(v, gs, nint, j) {
      var k :| 0 <= k < |gs| && GapIndices(v, gs[k], nint).Some?
        && GapIndices(v, gs[k], nint).value.0 <= j <= GapIndices(v, gs[k], nint).value.1;
      if k < |gs| - 1 {
        assert init[k] == gs[k];
      }
    }
  }

  /** zero_gaps is idempotent: a second call finds nothing left to change. */
  lemma ZeroedTwice(v: PMValue, nint: real -> int)
    requires v.dt != 0.0
    ensures Zeroed(Zeroed(v, nint), nint) == Zeroed(v, nint)
  {
    var w := Zeroed(v, nint);
    ZeroedBySamples(v, v.gaps, nint);
    ZeroedBySamples(w, w.gaps, nint);
    assert w.(pmdata := v.pmdata, pmerr := v.pmerr) == v;
    forall j | 0 <= j < |w.pmdata| + |w.pmerr|
      ensures InGap(w, w.gaps, nint, j) == InGap(v, v.gaps, nint, j)
    {
      forall g: TimeWindow
        ensures GapIndices(w, g, nint) == GapIndices(v, g, nint)
      {
      }
    }
    assert Zeroed(w, nint).pmdata == w.pmdata;
    assert Zeroed(w, nint).pmerr == w.pmerr;
  }

  /** The seven attributes a derived time series can carry. */
  datatype Attribute =
    | RectilinearityTS
    | MajorAxisAmplitude
    | MinorAxisAmplitude
    | MajorAzimuthTS
    | MajorInclinationTS
    | MinorAzimuthTS
    | MinorInclinationTS
  {
    /** The PMDerivedTSType value recorded in the derived series' header. */
    function Name(): string
    {
      match this
      case RectilinearityTS => "rectilinearity"
      case MajorAxisAmplitude => "major_axis_amplitude"
      case MinorAxisAmplitude => "minor_axis_amplitude"
      case MajorAzimuthTS => "major_azimuth"
      case MajorInclinationTS => "major_inclination"
      case MinorAzimuthTS => "minor_azimuth"
      case MinorInclinationTS => "minor_inclination"
    }

    /** The attribute of one ellipse. */
    function Of(num: Numerics, e: Ellipse): real
    {
      match this
      case RectilinearityTS => Rectilinearity(e)
      case MajorAxisAmplitude => e.majornrm
      case MinorAxisAmplitude => e.minornrm
      case MajorAzimuthTS => MajorAzimuth(num, e)
      case MajorInclinationTS => MajorInclination(num, e)
      case MinorAzimuthTS => MinorAzimuth(num, e)
      case MinorInclinationTS => MinorInclination(num, e)
    }
  }

  /** The derived series as a value: ellipse(i) for i < ns, throwing at the first i past pmdata. */
  function DerivedSeries(num: Numerics, v: PMValue, a: Attribute): Result<Series>
  {
    if v.ns > |v.pmdata| then Throw(EllipseRangeMessage(|v.pmdata|, |v.pmdata|))
    else
      var n := if v.ns < 0 then 0 else v.ns;
      Ok(Series(true, v.ns, v.dt, v.t0, seq(n, i requires 0 <= i < n => a.Of(num, v.pmdata[i])),
                v.md[PMDerivedTSType := StringValue(a.Name())]))
  }

  /**
   * A derived series exists exactly when ns does not exceed the stored
   * ellipses; it is live, shares the time base, holds attribute a of each
   * ellipse in order and records which attribute it holds.
   */
  lemma DerivedSeriesSamples(num: Numerics, v: PMValue, a: Attribute)
    ensures DerivedSeries(num, v, a).Ok? <==> v.ns <= |v.pmdata|
    ensures DerivedSeries(num, v, a).Err? ==>
      DerivedSeries(num, v, a).failure == Thrown(EllipseRangeMessage(|v.pmdata|, |v.pmdata|))
    ensures DerivedSeries(num, v, a).Ok? ==> var d := DerivedSeries(num, v, a).value;
      && d.live && d.ns == v.ns && d.dt == v.dt && d.t0 == v.t0
      && (v.ns >= 0 ==> |d.s| == v.ns)
      && (forall i :: 0 <= i < |d.s| ==> d.s[i] == a.Of(num, v.pmdata[i]))
      && GetString(d.md, PMDerivedTSType) == Ok(a.Name())
  {
  }

  /** Every rectilinearity sample of a series whose ellipses have major >= minor lies in [0, 1). */
  lemma DerivedRectilinearityBounded(num: Numerics, v: PMValue)
    requires forall k :: 0 <= k < |v.pmdata| ==> v.pmdata[k].majornrm >= v.pmdata[k].minornrm
    requires DerivedSeries(num, v, RectilinearityTS).Ok?
    ensures forall i :: 0 <= i < |DerivedSeries(num, v, RectilinearityTS).value.s| ==>
      0.0 <= DerivedSeries(num, v, RectilinearityTS).value.s[i] < 1.0
  {
    var d := DerivedSeries(num, v, RectilinearityTS).value;
    forall i | 0 <= i < |d.s|
      ensures 0.0 <= d.s[i] < 1.0
    {
      RectilinearityBounds(v.pmdata[i]);
    }
  }

  /** The values of one output line: the axes scaled by their lengths, then every error attribute. */
  function LineValues(e: Ellipse, err: PMError): (ts: seq<Token>)
    ensures |ts| == 18
  {
    [Real(e.major.x * e.majornrm), Real(e.major.y * e.majornrm), Real(e.major.z * e.majornrm),
     Real(e.minor.x * e.minornrm), Real(e.minor.y * e.minornrm), Real(e.minor.z * e.minornrm)]
      + ParticleMotionError.AttributeValues(err)
  }

  /** One line of operator<<: the values separated by blanks, then a newline. */
  function Line(e: Ellipse, err: PMError): seq<Token>
  {
    ParticleMotionError.Separated(LineValues(e, err)) + [Endl]
  }

  /** Each line carries all six scaled axis components and all twelve error attributes, delta_rect included. */
  lemma LineReadsBack(e: Ellipse, err: PMError)
    ensures ParticleMotionError.Values(ParticleMotionError.Separated(LineValues(e, err))) == LineValues(e, err)
    ensures LineValues(e, err)[6..] == ParticleMotionError.AttributeValues(err)
    ensures Endl !in ParticleMotionError.Separated(LineValues(e, err))
  {
    ParticleMotionError.ValuesOfSeparated(LineValues(e, err));
  }

  /** operator<<: the header, a newline, then one line per sample; throws past the stored data. */
  function Printed(header: seq<Token>, v: PMValue): Result<seq<Token>>
  {
    if v.ns > |v.pmdata| || v.ns > |v.pmerr| then
      var i := if |v.pmdata| <= |v.pmerr| then |v.pmdata| else |v.pmerr|;
      if i == |v.pmdata| then Throw(EllipseRangeMessage(i, |v.pmdata|)) else Throw(ErrorsRangeMessage(i, |v.pmerr|))
    else Ok(header + [Endl] + Lines(v.pmdata, v.pmerr, v.ns))
  }

  /** The print stops at the first sample past the ellipses or past the error estimates. */
  lemma PrintedStopsAt(header: seq<Token>, v: PMValue, i: int)
    requires 0 <= i < v.ns && i <= |v.pmdata| && i <= |v.pmerr| && (i == |v.pmdata| || i == |v.pmerr|)
    ensures i == |v.pmdata| ==> Printed(header, v) == Throw(EllipseRangeMessage(i, |v.pmdata|))
    ensures i < |v.pmdata| ==> Printed(header, v) == Throw(ErrorsRangeMessage(i, |v.pmerr|))
  {
  }

  /** The lines of samples 0..n-1. */
  function Lines(pmdata: seq<Ellipse>, pmerr: seq<PMError>, n: int): (ts: seq<Token>)
    requires n <= |pmdata| && n <= |pmerr|
    decreases n
  {
    if n <= 0 then [] else Lines(pmdata, pmerr, n - 1) + Line(pmdata[n - 1], pmerr[n - 1])
  }

  /** Each line ends with the only newline it holds. */
  lemma LineHasOneNewline(e: Ellipse, err: PMError)
    ensures multiset(Line(e, err))[Endl] == 1
  {
    var sep := ParticleMotionError.Separated(LineValues(e, err));
    LineReadsBack(e, err);
    assert multiset(sep)[Endl] == 0;
    assert multiset(sep + [Endl]) == multiset(sep) + multiset([Endl]);
  }

  /** The output holds one newline per sample after the header's own. */
  lemma {:induction false} LinesCount(pmdata: seq<Ellipse>, pmerr: seq<PMError>, n: int)
    requires n <= |pmdata| && n <= |pmerr|
    ensures multiset(Lines(pmdata, pmerr, n))[Endl] == if n < 0 then 0 else n
    decreases n
  {
    if n > 0 {
      LinesCount(pmdata, pmerr, n - 1);
      var prev := Lines(pmdata, pmerr, n - 1);
      var line := Line(pmdata[n - 1], pmerr[n - 1]);
      LineHasOneNewline(pmdata[n - 1], pmerr[n - 1]);
      assert Lines(pmdata, pmerr, n) == prev + line;
      CountOfConcat(prev, line, Endl);
    }
  }

  lemma CountOfConcat<T>(a: seq<T>, b: seq<T>, x: T)
    ensures multiset(a + b)[x] == multiset(a)[x] + multiset(b)[x]
  {
    assert multiset(a + b) == multiset(a) + multiset(b);
  }

  // ---------------------------------------------------------------------
  // The object
  // ---------------------------------------------------------------------

  /** A particle-motion time series; zero_gaps and assignment update it in place. */
  class PMTimeSeries {
    var live: bool
    var ns: int
    var dt: real
    var t0: real
    var tref: TimeReference
    var md: Attributes
    var gaps: seq<TimeWindow>
    var pmdata: seq<Ellipse>
    var pmerr: seq<PMError>
    var averagingLength: int
    var f0: real
    var fw: real
    var decfac: int

    /** Every field, as one value. */
    function Value(): PMValue
      reads this
    {
      PMValue(live, ns, dt, t0, tref, md, gaps, pmdata, pmerr, averagingLength, f0, fw, decfac)
    }

    /** An object holding the fields of v. */
    constructor Init(v: PMValue)
      ensures Value() == v
    {
      live, ns, dt, t0, tref, md, gaps := v.live, v.ns, v.dt, v.t0, v.tref, v.md, v.gaps;
      pmdata, pmerr := v.pmdata, v.pmerr;
      averagingLength, f0, fw, decfac := v.averagingLength, v.f0, v.fw, v.decfac;
    }

    /** The copy constructor. */
    constructor Copy(parent: PMTimeSeries)
      ensures Value() == parent.Value()
    {
      live, ns, dt, t0, tref, md, gaps := parent.live, parent.ns, parent.dt, parent.t0, parent.tref, parent.md, parent.gaps;
      pmdata, pmerr := parent.pmdata, parent.pmerr;
      averagingLength, f0, fw, decfac := parent.averagingLength, parent.f0, parent.fw, parent.decfac;
    }

    /** operator=: every field of parent; assigning an object to itself changes nothing. */
    method Assign(parent: PMTimeSeries)
      modifies this
      ensures Value() == old(parent.Value())
    {
      if this != parent {
        f0, fw, averagingLength, decfac := parent.f0, parent.fw, parent.averagingLength, parent.decfac;
        live, ns, dt, t0, tref, gaps := parent.live, parent.ns, parent.dt, parent.t0, parent.tref, parent.gaps;
        md := parent.md;
        pmdata, pmerr := parent.pmdata, parent.pmerr;
      }
    }

    /** The sample-by-sample constructor PMTimeSeries(d, band). */
    static method SampleBySampleBuild(num: Numerics, stats: Stats, b: MWTBundle.Bundle, band: int)
        returns (r: Result<PMTimeSeries>)
      requires MWTBundle.Valid(b) && MWTBundle.Consistent(b)
      ensures r.Err? <==> SampleBySample(num, stats, b, band).Err?
      ensures r.Err? ==> r.failure == SampleBySample(num, stats, b, band).failure
      ensures r.Ok? ==> fresh(r.value) && r.value.Value() == SampleBySample(num, stats, b, band).value
    {
      if band >= b.nb {
        return Throw(SampleBase + BandMessage(band, b.nb));
      }
      MWTBundle.GettersSucceedOnValidBands(b, band);
      var f0r := MWTBundle.F0(b, band);
      if f0r.Err? {
        return Err(f0r.failure);
      }
      var fw := MWTBundle.Fw(b, band).value;
      var dt := MWTBundle.SampleInterval(b, band).value;
      var decfac := MWTBundle.DecFac(b, band).value;
      assert MWTMatrix.Valid(b.mwtdata[0]);
      assert b.mwtdata[0].nbands == b.nb && b.mwtdata[0].nwavelets == b.nw;
      var loaded := LoadComponents(b, band, b.nw);
      if loaded.Err? {
        return Err(loaded.failure);
      }
      var c := loaded.value;
      LoadedWellFormed(b, band, b.nw, c);
      var ns := c.x[0].ns;
      var t0 := c.x[0].t0;
      var check := CheckSamples(c, ns, t0);
      if check.Some? {
        return Throw(SampleBase + check.value);
      }
      CongruentHasSamples(c, ns, t0);
      var pmdata, pmerr := SampleLoop(num, stats, c, ns);
      var v := PMValue(true, ns, dt, t0, c.x[0].tref, Posted(b.md, 1, f0r.value, fw, decfac, ns, dt), [],
                       pmdata, pmerr, 1, f0r.value, fw, decfac);
      var t := new PMTimeSeries.Init(v);
      r := Ok(t);
    }

    /** The time-averaging constructor PMTimeSeries(d, band, timesteps, avlen). */
    static method TimeAveragedBuild(est: WindowedEstimate, stats: Stats, b: MWTBundle.Bundle,
                                    band: int, timesteps: int, avlen: int)
        returns (r: Result<PMTimeSeries>)
      requires MWTBundle.Valid(b) && MWTBundle.Consistent(b) && PositiveDecimation(b)
      ensures r.Err? <==> TimeAveraged(est, stats, b, band, timesteps, avlen).Err?
      ensures r.Err? ==> r.failure == TimeAveraged(est, stats, b, band, timesteps, avlen).failure
      ensures r.Ok? ==> fresh(r.value) && r.value.Value() == TimeAveraged(est, stats, b, band, timesteps, avlen).value
    {
      if |b.mwtdata| != 3 {
        return Throw(AverageBase + MemberCountMessage(|b.mwtdata|));
      }
      if band >= b.nb {
        return Throw(AverageBase + BandMessage(band, b.nb));
      }
      MWTBundle.GettersSucceedOnValidBands(b, band);
      var f0r := MWTBundle.F0(b, band);
      if f0r.Err? {
        return Err(f0r.failure);
      }
      var fw := MWTBundle.Fw(b, band).value;
      assert MWTMatrix.Valid(b.mwtdata[0]);
      assert b.mwtdata[0].nbands == b.nb && b.mwtdata[0].nwavelets == b.nw;
      assert MWTBundle.DecFac(b, band).value >= 1 by {
        assert MWTMatrix.FlatIndex(b.mwtdata[0], band, 0) < |b.mwtdata[0].d|;
      }
      var decfac := MWTBundle.DecFac(b, band).value * timesteps;
      var loaded := LoadComponents(b, band, b.nw);
      if loaded.Err? {
        return Err(loaded.failure);
      }
      var c := loaded.value;
      if decfac == 0 {
        return Err(Undefined(DecimationByZero));
      }
      var r1 := AveragedBuild(est, stats, b.md, c, band, avlen, f0r.value, fw, decfac);
      if r1.Err? {
        return Err(r1.failure);
      }
      var t := new PMTimeSeries.Init(r1.value);
      r := Ok(t);
    }

    /** ellipse(i) of this object. */
    function EllipseAt(i: int): (r: Result<Ellipse>)
      reads this
      ensures r == EllipseOf(Value(), i)
    {
      EllipseOf(Value(), i)
    }

    /** errors(i): the error estimates at sample i, or an error outside the stored data. */
    function ErrorsAt(i: int): (r: Result<PMError>)
      reads this
      ensures r.Ok? <==> 0 <= i < |pmerr|
      ensures r.Ok? ==> r.value == pmerr[i]
      ensures r.Err? ==> r.failure == Thrown(ErrorsRangeMessage(i, |pmerr|))
    {
      if i < 0 || i >= |pmerr| then Throw(ErrorsRangeMessage(i, |pmerr|)) else Ok(pmerr[i])
    }

    /** Clears samples lo..hi of both vectors, leaving every other field alone. */
    method ClearSpan(lo: int, hi: int)
      requires 0 <= lo && hi < |pmdata| && |pmerr| == |pmdata|
      modifies this
      ensures Value() == old(Value()).(pmdata := Cleared(old(pmdata), ParticleMotionEllipse.Zero(), lo, hi),
                                       pmerr := Cleared(old(pmerr), ParticleMotionError.Zero(), lo, hi))
    {
      var j := lo;
      while j <= hi
        invariant lo <= j && (j <= hi + 1 || j == lo)
        invariant |pmdata| == |old(pmdata)| && |pmerr| == |old(pmerr)|
        invariant forall q :: 0 <= q < |pmdata| ==>
          pmdata[q] == if lo <= q < j then ParticleMotionEllipse.Zero() else old(pmdata)[q]
        invariant forall q :: 0 <= q < |pmerr| ==>
          pmerr[q] == if lo <= q < j then ParticleMotionError.Zero() else old(pmerr)[q]
        invariant Value().(pmdata := old(pmdata), pmerr := old(pmerr)) == old(Value())
      {
        pmdata := pmdata[j := ParticleMotionEllipse.Zero()];
        pmerr := pmerr[j := ParticleMotionError.Zero()];
        j := j + 1;
      }
      assert pmdata == Cleared(old(pmdata), ParticleMotionEllipse.Zero(), lo, hi);
      assert pmerr == Cleared(old(pmerr), ParticleMotionError.Zero(), lo, hi);
    }

    /** The first and last sample gap g covers, rounded to the nearest sample, or None when it misses the series. */
    method GapSpan(g: TimeWindow, nint: real -> int) returns (r: Option<(int, int)>)
      requires dt > 0.0
      ensures r == GapIndices(Value(), g, nint)
    {
      var tsend := t0 + (ns - 1) as real * dt;
      if g.end < t0 || g.start > tsend {
        return None;
      }
      var istart := if g.start < t0 then 0 else nint((g.start - t0) / dt);
      var iend := if g.end > tsend then ns - 1 else nint((g.end - t0) / dt);
      r := Some((istart, iend));
    }

    /** The body of zero_gaps' loop for one gap: clear its samples, three times over. */
    method ZeroGap(g: TimeWindow, nint: real -> int)
      requires dt > 0.0 && RoundsToNearest(nint)
      requires |pmdata| == ns && |pmerr| == ns
      modifies this
      ensures Value() == ZeroedGap(old(Value()), g, nint)
    {
      var span := GapSpan(g, nint);
      if span.None? {
        return;
      }
      var istart, iend := span.value.0, span.value.1;
      ghost var w := Value();
      GapIndicesInRange(w, g, nint);
      var pass := 0;
      while pass < 3
        invariant 0 <= pass <= 3
        invariant pass == 0 ==> Value() == w
        invariant pass > 0 ==> Value() == ZeroedGap(w, g, nint)
      {
        ClearSpan(istart, iend);
        ClearedTwice(w.pmdata, ParticleMotionEllipse.Zero(), istart, iend);
        ClearedTwice(w.pmerr, ParticleMotionError.Zero(), istart, iend);
        pass := pass + 1;
      }
    }

    /**
     * zero_gaps: for each gap that overlaps the series, the ellipses and
     * errors of the samples it covers (by nearest sample) are zeroed.
     */
    method ZeroGaps(nint: real -> int)
      requires dt > 0.0 && RoundsToNearest(nint)
      requires |pmdata| == ns && |pmerr| == ns
      modifies this
      ensures Value() == Zeroed(old(Value()), nint)
    {
      ghost var v := Value();
      var k := 0;
      while k < |gaps|
        invariant 0 <= k <= |v.gaps|
        invariant Value() == ZeroedBy(v, v.gaps[..k], nint)
      {
        assert v.gaps[..k + 1][..k] == v.gaps[..k];
        ZeroGap(gaps[k], nint);
        k := k + 1;
      }
      assert v.gaps[..|v.gaps|] == v.gaps;
    }

    /**
     * The seven derived series (rectilinearity, major_axis_amplitude, ...):
     * a TimeSeries with this object's header and time base holding one
     * attribute of each ellipse.
     */
    method Derived(num: Numerics, a: Attribute) returns (r: Result<Series>)
      ensures r == DerivedSeries(num, Value(), a)
    {
      var s: seq<real> := [];
      var i := 0;
      while i < ns
        invariant 0 <= i && (i <= ns || i == 0)
        invariant i <= |pmdata|
        invariant |s| == i && forall q :: 0 <= q < i ==> s[q] == a.Of(num, pmdata[q])
      {
        var e := EllipseAt(i);
        if e.Err? {
          return Err(e.failure);
        }
        s := s + [a.Of(num, e.value)];
        i := i + 1;
      }
      var d := pmdata;
      assert s == seq(i, q requires 0 <= q < i => a.Of(num, d[q]));
      r := Ok(Series(true, ns, dt, t0, s, md[PMDerivedTSType := StringValue(a.Name())]));
    }

    /** One line of operator<<: ellipse(i), then errors(i), either of which may throw. */
    method WriteLine(i: int) returns (r: Result<seq<Token>>)
      requires 0 <= i
      ensures r.Ok? <==> i < |pmdata| && i < |pmerr|
      ensures r.Ok? ==> r.value == Line(pmdata[i], pmerr[i])
      ensures i >= |pmdata| ==> r == Throw(EllipseRangeMessage(i, |pmdata|))
      ensures i < |pmdata| && i >= |pmerr| ==> r == Throw(ErrorsRangeMessage(i, |pmerr|))
    {
      var e := EllipseAt(i);
      if e.Err? {
        return Err(e.failure);
      }
      var err := ErrorsAt(i);
      if err.Err? {
        return Err(err.failure);
      }
      r := Ok(Line(e.value, err.value));
    }

    /** operator<<: the header, then one line per sample. */
    method Write(header: seq<Token>) returns (r: Result<seq<Token>>)
      ensures r == Printed(header, Value())
    {
      var lines := [];
      var i := 0;
      while i < ns
        invariant 0 <= i && (i <= ns || i == 0)
        invariant i <= |pmdata| && i <= |pmerr|
        invariant lines == Lines(pmdata, pmerr, i)
      {
        var line := WriteLine(i);
        if line.Err? {
          PrintedStopsAt(header, Value(), i);
          return line;
        }
        lines := lines + line.value;
        i := i + 1;
      }
      r := Ok(header + [Endl] + lines);
    }
  }

  /** Clearing the same span twice is clearing it once. */
  lemma ClearedTwice<T>(d: seq<T>, z: T, lo: int, hi: int)
    ensures Cleared(Cleared(d, z, lo, hi), z, lo, hi) == Cleared(d, z, lo, hi)
  {
  }
}

/**
 * mwpm: the multiwavelet particle-motion driver.  It reads its control
 * parameters, then for every row of the working view builds the 3C
 * seismogram, skips it when its sample interval is off the target, aligns
 * it on an arrival (or on t0 plus an offset), transforms it, builds one
 * PMTimeSeries per frequency band and serializes each to a file named from
 * the station and event.  A SeisppError on one row is logged and the row
 * skipped; the run goes on with the next row.
 *
 * The database, the parameter-file reader, ArrivalTimeReference, the
 * MWTBundle transform and the open of the output stream are parameters:
 * the rows arrive as the outcomes of the seismogram constructor, the
 * transform and alignment are functions in a Toolkit, and the output
 * directory is a map from file name to the series last written there.
 */
module Mwpm {
  import opened Failures
  import opened MetadataMaps
  import opened Seismograms
  import opened Numerics
  import opened DecimalText
  import MWTBundle
  import PMTimeSeries

  type PMValue = PMTimeSeries.PMValue

  // ---------------------------------------------------------------------
  // Command line
  // ---------------------------------------------------------------------

  const DefaultSubset: string := "none"
  const DefaultPf: string := "mwpm.pf"

  /** The database name, the subset condition and the parameter file. */
  datatype Command = Command(db: string, subset: string, pffile: string)

  /** What may follow the database name: "-s value" and "-pf value" pairs only. */
  predicate OptionsValid(opts: seq<string>)
    decreases |opts|
  {
    |opts| == 0 || (|opts| >= 2 && (opts[0] == "-s" || opts[0] == "-pf") && OptionsValid(opts[2..]))
  }

  /** The value flag is left with, starting from value. */
  function OptionValue(opts: seq<string>, flag: string, value: string): string
    requires OptionsValid(opts)
    decreases |opts|
  {
    if |opts| == 0 then value
    else OptionValue(opts[2..], flag, if opts[0] == flag then opts[1] else value)
  }

  /** The flag of the m-th option pair. */
  function FlagAt(opts: seq<string>, m: int): string
    requires 0 <= m && 2 * m + 1 < |opts|
  {
    opts[2 * m]
  }

  /** A flag that is never given keeps its default. */
  lemma {:induction false} AbsentOptionKeepsDefault(opts: seq<string>, flag: string, value: string)
    requires OptionsValid(opts)
    requires forall m :: 0 <= m && 2 * m + 1 < |opts| ==> FlagAt(opts, m) != flag
    ensures OptionValue(opts, flag, value) == value
    decreases |opts|
  {
    if |opts| != 0 {
      assert FlagAt(opts, 0) != flag;
      forall m | 0 <= m && 2 * m + 1 < |opts[2..]|
        ensures FlagAt(opts[2..], m) != flag
      {
        assert FlagAt(opts[2..], m) == FlagAt(opts, m + 1);
      }
      AbsentOptionKeepsDefault(opts[2..], flag, value);
    }
  }

  /** Of several pairs with the same flag, the value of the last one is in force. */
  lemma {:induction false} LastOptionWins(opts: seq<string>, flag: string, value: string, m: int)
    requires OptionsValid(opts) && 0 <= m && 2 * m + 1 < |opts| && FlagAt(opts, m) == flag
    requires forall k :: m < k && 2 * k + 1 < |opts| ==> FlagAt(opts, k) != flag
    ensures OptionValue(opts, flag, value) == opts[2 * m + 1]
    decreases |opts|
  {
    var rest := opts[2..];
    if m == 0 {
      forall k | 0 <= k && 2 * k + 1 < |rest|
        ensures FlagAt(rest, k) != flag
      {
        assert FlagAt(rest, k) == FlagAt(opts, k + 1);
      }
      AbsentOptionKeepsDefault(rest, flag, opts[1]);
    } else {
      assert FlagAt(rest, m - 1) == FlagAt(opts, m);
      forall k | m - 1 < k && 2 * k + 1 < |rest|
        ensures FlagAt(rest, k) != flag
      {
        assert FlagAt(rest, k) == FlagAt(opts, k + 1);
      }
      LastOptionWins(rest, flag, if opts[0] == flag then opts[1] else value, m - 1);
      assert rest[2 * (m - 1) + 1] == opts[2 * m + 1];
    }
  }

  /**
   * The argument loop of main over argv[1..]: no database name, an unknown
   * flag or a flag without its value is the usage exit.
   */
  method ParseCommandLine(args: seq<string>) returns (r: Result<Command>)
    ensures r.Ok? <==> |args| >= 1 && OptionsValid(args[1..])
    ensures r.Err? ==> r == Exit(-1)
    ensures r.Ok? ==> r.value == Command(args[0], OptionValue(args[1..], "-s", DefaultSubset),
                                         OptionValue(args[1..], "-pf", DefaultPf))
  {
    if |args| < 1 {
      return Exit(-1);
    }
    var opts := args[1..];
    var subset := DefaultSubset;
    var pffile := DefaultPf;
    var i := 0;
    while i < |opts|
      invariant 0 <= i <= |opts|
      invariant OptionsValid(opts) <==> OptionsValid(opts[i..])
      invariant OptionsValid(opts) ==>
        && OptionValue(opts, "-s", DefaultSubset) == OptionValue(opts[i..], "-s", subset)
        && OptionValue(opts, "-pf", DefaultPf) == OptionValue(opts[i..], "-pf", pffile)
    {
      if (opts[i] != "-s" && opts[i] != "-pf") || i + 1 >= |opts| {
        return Exit(-1);
      }
      assert opts[i..][2..] == opts[i + 2..];
      if opts[i] == "-s" {
        subset := opts[i + 1];
      } else {
        pffile := opts[i + 1];
      }
      i := i + 2;
    }
    assert opts[i..] == [];
    r := Ok(Command(args[0], subset, pffile));
  }

  // ---------------------------------------------------------------------
  // Control parameters
  // ---------------------------------------------------------------------

  /** The key the alignment time is posted under. */
  const AlignKey: string := "arrival.time"

  /** The phase name used when aligning on t0. */
  const T0Phase: string := "t0"

  const DecimationKey: string := "particle_motion_sampling_decimation_factor"

  datatype Params = Params(
    targetDt: real,
    tolerance: real,
    alignWithT0: bool,
    alignmentPhase: string,
    t0Offset: real,
    cut: TimeWindow,
    outdir: string,
    obname: string,
    avlen: int,
    pmdt: int)

  /**
   * What the parameter block guarantees: aligning on t0 means phase "t0"
   * and a nonnegative offset, no offset otherwise, and a decimation factor
   * of 1 unless time averaging is asked for.
   */
  predicate ParamsSound(p: Params)
  {
    && (p.alignWithT0 ==> p.alignmentPhase == T0Phase && p.t0Offset >= 0.0)
    && (!p.alignWithT0 ==> p.t0Offset == 0.0)
    && (p.avlen <= 1 ==> p.pmdt == 1)
  }

  /** Every parameter main reads is present with its type, and a t0 offset is nonnegative. */
  predicate ParamsPresent(control: Attributes)
  {
    && GetReal(control, "target_dt").Ok?
    && GetReal(control, "dt_fraction_error_tolerance").Ok?
    && GetBool(control, "align_with_t0").Ok?
    && (GetBool(control, "align_with_t0").value ==>
          GetReal(control, "t0_offset").Ok? && GetReal(control, "t0_offset").value >= 0.0)
    && (!GetBool(control, "align_with_t0").value ==> GetString(control, "alignment_phase").Ok?)
    && GetReal(control, "cut_time_window_start").Ok?
    && GetReal(control, "cut_time_window_end").Ok?
    && GetString(control, "output_data_directory").Ok?
    && GetString(control, "output_file_base_name").Ok?
    && GetInt(control, "particle_motion_time_average_length").Ok?
    && (GetInt(control, "particle_motion_time_average_length").value > 1 ==> GetInt(control, DecimationKey).Ok?)
  }

  /**
   * The parameter block of main.  A missing parameter throws
   * MetadataGetError, which the outer handler turns into exit(-1); a
   * negative t0_offset when aligning on t0 is exit(-1) directly.
   */
  function ReadParams(control: Attributes): (r: Result<Params>)
    ensures r.Ok? <==> ParamsPresent(control)
    ensures r.Err? ==> r == Exit(-1)
    ensures r.Ok? ==> ParamsSound(r.value)
    ensures r.Ok? ==>
      && GetReal(control, "target_dt") == Ok(r.value.targetDt)
      && GetReal(control, "dt_fraction_error_tolerance") == Ok(r.value.tolerance)
      && GetBool(control, "align_with_t0") == Ok(r.value.alignWithT0)
      && GetReal(control, "cut_time_window_start") == Ok(r.value.cut.start)
      && GetReal(control, "cut_time_window_end") == Ok(r.value.cut.end)
      && GetString(control, "output_data_directory") == Ok(r.value.outdir)
      && GetString(control, "output_file_base_name") == Ok(r.value.obname)
      && GetInt(control, "particle_motion_time_average_length") == Ok(r.value.avlen)
      && (r.value.alignWithT0 ==> GetReal(control, "t0_offset") == Ok(r.value.t0Offset))
      && (!r.value.alignWithT0 ==> GetString(control, "alignment_phase") == Ok(r.value.alignmentPhase))
      && (r.value.avlen > 1 ==> GetInt(control, DecimationKey) == Ok(r.value.pmdt))
    ensures (GetBool(control, "align_with_t0") == Ok(true) && GetReal(control, "t0_offset").Ok?
             && GetReal(control, "t0_offset").value < 0.0) ==> r == Exit(-1)
  {
    var target := GetReal(control, "target_dt");
    var tolerance := GetReal(control, "dt_fraction_error_tolerance");
    var align := GetBool(control, "align_with_t0");
    if target.Err? || tolerance.Err? || align.Err? then Exit(-1)
    else
      var phase := if align.value then Ok(T0Phase) else GetString(control, "alignment_phase");
      var offset := if align.value then GetReal(control, "t0_offset") else Ok(0.0);
      if phase.Err? || offset.Err? || offset.value < 0.0 then Exit(-1)
      else
        var cts := GetReal(control, "cut_time_window_start");
        var cte := GetReal(control, "cut_time_window_end");
        var outdir := GetString(control, "output_data_directory");
        var obname := GetString(control, "output_file_base_name");
        var avlen := GetInt(control, "particle_motion_time_average_length");
        if cts.Err? || cte.Err? || outdir.Err? || obname.Err? || avlen.Err? then Exit(-1)
        else
          var pmdt := if avlen.value > 1 then GetInt(control, DecimationKey) else Ok(1);
          if pmdt.Err? then Exit(-1)
          else Ok(Params(target.value, tolerance.value, align.value, phase.value, offset.value,
                         TimeWindow(cts.value, cte.value), outdir.value, obname.value, avlen.value, pmdt.value))
  }

  // ---------------------------------------------------------------------
  // dt_ok
  // ---------------------------------------------------------------------

  /**
   * dt_ok: the fractional error |dt - target|/target against the tolerance.
   * A zero target makes the quotient infinite or NaN, and the test false.
   */
  function DtOk(dt: real, target: real, tolerance: real): bool
  {
    if target == 0.0 then false else Abs(dt - target) / target < tolerance
  }

  /**
   * For a positive target, dt passes exactly when it lies strictly inside
   * target*(1 - tolerance) .. target*(1 + tolerance); a negative target
   * makes the quotient nonpositive, so every dt passes a positive tolerance.
   */
  lemma DtOkWithinTolerance(dt: real, target: real, tolerance: real)
    ensures target > 0.0 ==>
      (DtOk(dt, target, tolerance) <==> target - tolerance * target < dt < target + tolerance * target)
    ensures target < 0.0 && tolerance > 0.0 ==> DtOk(dt, target, tolerance)
    ensures target == 0.0 ==> !DtOk(dt, target, tolerance)
  {
    if target > 0.0 {
      var e := Abs(dt - target);
      var q := e / target;
      assert q * target == e;
      if q < tolerance {
        assert e < tolerance * target;
      }
      if e < tolerance * target {
        assert q * target < tolerance * target;
      }
    } else if target < 0.0 {
      var e := Abs(dt - target);
      assert (e / target) * target == e;
      assert e / target <= 0.0;
    }
  }

  // ---------------------------------------------------------------------
  // The services main calls and the constructor choice
  // ---------------------------------------------------------------------

  /**
   * The PMTimeSeries constructors and the services of main that are not
   * part of this model: ArrivalTimeReference, the MWTBundle constructor
   * over a seismogram, and whether an ofstream opens a given file name.
   * The constructors are the ones PMTimeSeries models when Constructors
   * holds; the estimators they use are kept beside them.
   */
  datatype Toolkit = Toolkit(
    num: Numerics,
    stats: PMTimeSeries.Stats,
    est: PMTimeSeries.WindowedEstimate,
    sampleBySample: (MWTBundle.Bundle, nat) -> Result<PMValue>,
    timeAveraged: (MWTBundle.Bundle, nat, int, int) -> Result<PMValue>,
    reference: (Seis3C, string, TimeWindow) -> Result<Seis3C>,
    transform: Seis3C -> Result<MWTBundle.Bundle>,
    opens: string -> bool)

  /** A bundle both PMTimeSeries constructors accept. */
  predicate Usable(b: MWTBundle.Bundle)
  {
    MWTBundle.Valid(b) && MWTBundle.Consistent(b) && PMTimeSeries.PositiveDecimation(b)
  }

  /** The toolkit's constructors are PMTimeSeries(d, band) and PMTimeSeries(d, band, timesteps, avlen). */
  ghost predicate Constructors(tk: Toolkit)
  {
    && (forall b: MWTBundle.Bundle, band: nat :: Usable(b) ==>
          tk.sampleBySample(b, band) == PMTimeSeries.SampleBySample(tk.num, tk.stats, b, band))
    && (forall b: MWTBundle.Bundle, band: nat, timesteps: int, avlen: int :: Usable(b) ==>
          tk.timeAveraged(b, band, timesteps, avlen) == PMTimeSeries.TimeAveraged(tk.est, tk.stats, b, band, timesteps, avlen))
  }

  /** The series main builds for one band: time averaged when avlen > 1, sample by sample otherwise. */
  function BandSeries(b: MWTBundle.Bundle, band: nat, p: Params, tk: Toolkit): Result<PMValue>
  {
    if p.avlen > 1 then tk.timeAveraged(b, band, p.pmdt, p.avlen) else tk.sampleBySample(b, band)
  }

  /** The posted attributes leave the station and event of the header alone. */
  lemma PostedKeepsSource(md: Attributes, avlen: int, f0: real, fw: real, decfac: int, ns: int, dt: real)
    ensures var h := PMTimeSeries.Posted(md, avlen, f0, fw, decfac, ns, dt);
      GetString(h, "sta") == GetString(md, "sta") && GetInt(h, "evid") == GetInt(md, "evid")
  {
  }

  /**
   * What main's choice of constructor yields for one band: the averaging
   * length is avlen when averaging and 1 otherwise, the decimation is the
   * band's times pmdt in both cases (pmdt is 1 for the sample-by-sample
   * series), and the station and event of the bundle are kept.
   */
  predicate ChoiceKept(b: MWTBundle.Bundle, band: nat, p: Params, v: PMValue)
    requires Usable(b)
  {
    && band < b.nb
    && MWTBundle.DecFac(b, band).Ok?
    && v.averagingLength == (if p.avlen > 1 then p.avlen else 1)
    && v.decfac == MWTBundle.DecFac(b, band).value * p.pmdt
    && GetString(v.md, "sta") == GetString(b.md, "sta")
    && GetInt(v.md, "evid") == GetInt(b.md, "evid")
  }

  /** The averaging stage posts its attributes over the header it is given. */
  lemma AveragedWindowsHeader(est: PMTimeSeries.WindowedEstimate, stats: PMTimeSeries.Stats, md: Attributes,
                              c: PMTimeSeries.Components, avlen: int, f0: real, fw: real, decfac: int)
    requires PMTimeSeries.SameShape(c) && |c.x| > 0 && decfac >= 1
    requires PMTimeSeries.AveragedWindows(est, stats, md, c, avlen, f0, fw, decfac).Ok?
    ensures var v := PMTimeSeries.AveragedWindows(est, stats, md, c, avlen, f0, fw, decfac).value;
      v.md == PMTimeSeries.Posted(md, avlen, f0, fw, decfac, v.ns, v.dt)
  {
  }

  /** The time-averaged branch of the choice. */
  lemma AveragedChoice(b: MWTBundle.Bundle, band: nat, p: Params, tk: Toolkit)
    requires Usable(b) && ParamsSound(p) && p.avlen > 1
    requires tk.timeAveraged(b, band, p.pmdt, p.avlen) == PMTimeSeries.TimeAveraged(tk.est, tk.stats, b, band, p.pmdt, p.avlen)
    ensures band >= b.nb ==> BandSeries(b, band, p, tk).Err?
    ensures BandSeries(b, band, p, tk).Ok? ==> ChoiceKept(b, band, p, BandSeries(b, band, p, tk).value)
  {
    var r := PMTimeSeries.TimeAveraged(tk.est, tk.stats, b, band, p.pmdt, p.avlen);
    assert BandSeries(b, band, p, tk) == r;
    PMTimeSeries.TimeAveragedErrors(tk.est, tk.stats, b, band, p.pmdt, p.avlen);
    if r.Ok? {
      var v := r.value;
      PMTimeSeries.TimeAveragedShape(tk.est, tk.stats, b, band, p.pmdt, p.avlen);
      var c := PMTimeSeries.Loaded(b, band, b.nw).value;
      PMTimeSeries.AveragedWindowsShape(tk.est, tk.stats, b.md, c, p.avlen, v.f0, v.fw, v.decfac);
      AveragedWindowsHeader(tk.est, tk.stats, b.md, c, p.avlen, v.f0, v.fw, v.decfac);
      PostedKeepsSource(b.md, p.avlen, v.f0, v.fw, v.decfac, v.ns, v.dt);
    }
  }

  /** The sample-by-sample branch of the choice. */
  lemma SampledChoice(b: MWTBundle.Bundle, band: nat, p: Params, tk: Toolkit)
    requires Usable(b) && ParamsSound(p) && p.avlen <= 1
    requires tk.sampleBySample(b, band) == PMTimeSeries.SampleBySample(tk.num, tk.stats, b, band)
    ensures band >= b.nb ==> BandSeries(b, band, p, tk).Err?
    ensures BandSeries(b, band, p, tk).Ok? ==> ChoiceKept(b, band, p, BandSeries(b, band, p, tk).value)
  {
    var r := PMTimeSeries.SampleBySample(tk.num, tk.stats, b, band);
    assert BandSeries(b, band, p, tk) == r;
    PMTimeSeries.SampleBySampleErrors(tk.num, tk.stats, b, band);
    if r.Ok? {
      var v := r.value;
      PMTimeSeries.SampleBySampleShape(tk.num, tk.stats, b, band);
      assert v.md == PMTimeSeries.Posted(b.md, 1, v.f0, v.fw, v.decfac, v.ns, v.dt);
      PostedKeepsSource(b.md, 1, v.f0, v.fw, v.decfac, v.ns, v.dt);
    }
  }

  /**
   * The constructor choice of main, for a toolkit whose constructors are
   * PMTimeSeries': a band past the bundle's is rejected, and a built series
   * has the averaging length, decimation, station and event ChoiceKept
   * describes.
   */
  lemma BandSeriesChoice(b: MWTBundle.Bundle, band: nat, p: Params, tk: Toolkit)
    requires Usable(b) && ParamsSound(p) && Constructors(tk)
    ensures band >= b.nb ==> BandSeries(b, band, p, tk).Err?
    ensures BandSeries(b, band, p, tk).Ok? ==> ChoiceKept(b, band, p, BandSeries(b, band, p, tk).value)
  {
    if p.avlen > 1 {
      assert tk.timeAveraged(b, band, p.pmdt, p.avlen)
        == PMTimeSeries.TimeAveraged(tk.est, tk.stats, b, band, p.pmdt, p.avlen);
      AveragedChoice(b, band, p, tk);
    } else {
      assert tk.sampleBySample(b, band) == PMTimeSeries.SampleBySample(tk.num, tk.stats, b, band);
      SampledChoice(b, band, p, tk);
    }
  }

  // ---------------------------------------------------------------------
  // save_pmts and its file name
  // ---------------------------------------------------------------------

  /** A file-name rule: series header, directory, base name and band. */
  type Naming = (Attributes, string, string, nat) -> Result<string>

  const SaveBase: string := "Error in save_pmts procedure:  "

  function OpenMessage(name: string): string
  {
    SaveBase + "open failed for ofstream = " + name
  }

  /** save_pmts as written: dir/base_sta_evid.pmts, whatever the band. */
  function FileNameAsWritten(md: Attributes, dir: string, base: string, band: nat): (r: Result<string>)
    ensures r.Ok? <==> GetString(md, "sta").Ok? && GetInt(md, "evid").Ok?
    ensures r.Err? ==> r == Throw(MetadataGetError)
  {
    var sta := GetString(md, "sta");
    var evid := GetInt(md, "evid");
    if sta.Err? || evid.Err? then Throw(MetadataGetError)
    else Ok(dir + "/" + base + "_" + sta.value + "_" + IntText(evid.value) + ".pmts")
  }

  /** The name rule with the band index the band loop needs: dir/base_sta_evid_band.pmts. */
  function FileName(md: Attributes, dir: string, base: string, band: nat): (r: Result<string>)
    ensures r.Ok? <==> GetString(md, "sta").Ok? && GetInt(md, "evid").Ok?
    ensures r.Err? ==> r == Throw(MetadataGetError)
  {
    var sta := GetString(md, "sta");
    var evid := GetInt(md, "evid");
    if sta.Err? || evid.Err? then Throw(MetadataGetError)
    else Ok(dir + "/" + base + "_" + sta.value + "_" + IntText(evid.value) + "_" + NatText(band) + ".pmts")
  }

  /** Every band of a series gets the same as-written name. */
  lemma FileNameAsWrittenIgnoresBand(md: Attributes, dir: string, base: string, j: nat, k: nat)
    ensures FileNameAsWritten(md, dir, base, j) == FileNameAsWritten(md, dir, base, k)
  {
  }

  /** Two names ending in "_" and a run of digits agree only when the digit runs do. */
  lemma TrailingDigitsAgree(x: string, s: string, y: string, t: string)
    requires forall k :: 0 <= k < |s| ==> IsDigit(s[k])
    requires forall k :: 0 <= k < |t| ==> IsDigit(t[k])
    requires x + "_" + s == y + "_" + t
    ensures s == t
  {
    var w := x + "_" + s;
    var v := y + "_" + t;
    var n := if |s| < |t| then |s| else |t|;
    assert |s| == n <==> w[|w| - n - 1] == '_';
    assert |t| == n <==> v[|v| - n - 1] == '_';
    assert s == w[|w| - |s|..];
    assert t == v[|v| - |t|..];
  }

  /** The corrected name tells the band apart: two bands never share a file. */
  lemma FileNameKeepsBand(md: Attributes, md': Attributes, dir: string, dir': string, base: string, base': string,
                          j: nat, k: nat)
    requires FileName(md, dir, base, j).Ok? && FileName(md, dir, base, j) == FileName(md', dir', base', k)
    ensures j == k
  {
    var x := dir + "/" + base + "_" + GetString(md, "sta").value + "_" + IntText(GetInt(md, "evid").value);
    var y := dir' + "/" + base' + "_" + GetString(md', "sta").value + "_" + IntText(GetInt(md', "evid").value);
    var u := x + "_" + NatText(j);
    var v := y + "_" + NatText(k);
    assert u + ".pmts" == v + ".pmts";
    assert u == (u + ".pmts")[..|u|];
    assert v == (v + ".pmts")[..|v|];
    TrailingDigitsAgree(x, NatText(j), y, NatText(k));
    DigitsValueOfNatText(j);
    DigitsValueOfNatText(k);
  }

  /** save_pmts on a directory: Ok with the series written under its name, or the exception it throws. */
  function SavedPmts(files: map<string, PMValue>, v: PMValue, dir: string, base: string, band: nat,
                     naming: Naming, opens: string -> bool): (r: Result<map<string, PMValue>>)
  {
    var name := naming(v.md, dir, base, band);
    if name.Err? then Err(name.failure)
    else if !opens(name.value) then Throw(OpenMessage(name.value))
    else Ok(files[name.value := v])
  }

  /** save_pmts: one serialized series per call, replacing any file of the same name. */
  method SavePmts(files: map<string, PMValue>, v: PMValue, dir: string, base: string, band: nat,
                  naming: Naming, opens: string -> bool) returns (r: Result<map<string, PMValue>>)
    ensures r == SavedPmts(files, v, dir, base, band, naming, opens)
    ensures r.Ok? ==> r.value.Keys == files.Keys + {naming(v.md, dir, base, band).value}
    ensures r.Ok? ==> r.value[naming(v.md, dir, base, band).value] == v
    ensures r.Ok? ==> forall f :: f in files && f != naming(v.md, dir, base, band).value ==> r.value[f] == files[f]
  {
    var name := naming(v.md, dir, base, band);
    if name.Err? {
      return Err(name.failure);
    }
    if !opens(name.value) {
      return Throw(OpenMessage(name.value));
    }
    r := Ok(files[name.value := v]);
  }

  // ---------------------------------------------------------------------
  // The band loop
  // ---------------------------------------------------------------------

  /** The name and series of one band, or the exception building or naming it throws. */
  function BandOutput(b: MWTBundle.Bundle, band: nat, p: Params, tk: Toolkit, naming: Naming): Result<(string, PMValue)>
  {
    var v := BandSeries(b, band, p, tk);
    if v.Err? then Err(v.failure)
    else
      var name := naming(v.value.md, p.outdir, p.obname, band);
      if name.Err? then Err(name.failure) else Ok((name.value, v.value))
  }

  /** One pass of the band loop: build, name, open and write. */
  function SaveBand(files: map<string, PMValue>, b: MWTBundle.Bundle, band: nat, p: Params, tk: Toolkit,
                    naming: Naming): Result<map<string, PMValue>>
  {
    var v := BandSeries(b, band, p, tk);
    if v.Err? then Err(v.failure) else SavedPmts(files, v.value, p.outdir, p.obname, band, naming, tk.opens)
  }

  /** A pass of a band loop over a directory. */
  type BandStep = (map<string, PMValue>, nat) -> Result<map<string, PMValue>>

  /** The pass of main's band loop for one bundle. */
  function BandStepOf(b: MWTBundle.Bundle, p: Params, tk: Toolkit, naming: Naming): BandStep
  {
    (files: map<string, PMValue>, band: nat) => SaveBand(files, b, band, p, tk, naming)
  }

  /** The directory after bands 0..n-1, and the exception that ended the loop early, if any. */
  datatype Saved = Saved(files: map<string, PMValue>, failure: Option<Failure>)

  function BandsUpTo(files: map<string, PMValue>, step: BandStep, n: nat): Saved
  {
    if n == 0 then Saved(files, None)
    else
      var s := BandsUpTo(files, step, n - 1);
      if s.failure.Some? then s
      else
        var r := step(s.files, n - 1);
        if r.Err? then Saved(s.files, Some(r.failure)) else Saved(r.value, None)
  }

  lemma {:induction false} BandFailurePersists(files: map<string, PMValue>, step: BandStep, m: nat, n: nat)
    requires m <= n && BandsUpTo(files, step, m).failure.Some?
    ensures BandsUpTo(files, step, n) == BandsUpTo(files, step, m)
    decreases n
  {
    if n > m {
      BandFailurePersists(files, step, m, n - 1);
    }
  }

  /** Files are only added or replaced, never removed, and a completed loop built every band. */
  lemma {:induction false} BandsKeepFiles(files: map<string, PMValue>, b: MWTBundle.Bundle, n: nat,
                                          p: Params, tk: Toolkit, naming: Naming)
    ensures files.Keys <= BandsUpTo(files, BandStepOf(b, p, tk, naming), n).files.Keys
    ensures BandsUpTo(files, BandStepOf(b, p, tk, naming), n).failure.None? ==>
      forall j :: 0 <= j < n ==> BandOutput(b, j, p, tk, naming).Ok?
    decreases n
  {
    if n > 0 {
      BandsKeepFiles(files, b, n - 1, p, tk, naming);
    }
  }

  /**
   * With the band in the name, a band loop that runs to the end leaves
   * every band's series in its own file.
   */
  lemma {:induction false} CorrectedKeepsEveryBand(files: map<string, PMValue>, b: MWTBundle.Bundle, n: nat,
                                                   p: Params, tk: Toolkit)
    requires BandsUpTo(files, BandStepOf(b, p, tk, FileName), n).failure.None?
    ensures forall j :: 0 <= j < n ==>
      && BandOutput(b, j, p, tk, FileName).Ok?
      && BandOutput(b, j, p, tk, FileName).value.0 in BandsUpTo(files, BandStepOf(b, p, tk, FileName), n).files
      && BandsUpTo(files, BandStepOf(b, p, tk, FileName), n).files[BandOutput(b, j, p, tk, FileName).value.0]
         == BandOutput(b, j, p, tk, FileName).value.1
    decreases n
  {
    if n > 0 {
      CorrectedKeepsEveryBand(files, b, n - 1, p, tk);
      var last := BandOutput(b, n - 1, p, tk, FileName).value;
      forall j | 0 <= j < n - 1
        ensures BandOutput(b, j, p, tk, FileName).value.0 != last.0
      {
        assert BandOutput(b, j, p, tk, FileName).Ok?;
        var v := BandSeries(b, j, p, tk).value;
        var w := BandSeries(b, n - 1, p, tk).value;
        if BandOutput(b, j, p, tk, FileName).value.0 == last.0 {
          FileNameKeepsBand(v.md, w.md, p.outdir, p.outdir, p.obname, p.obname, j, n - 1);
        }
      }
    }
  }

  /** Every band's series so far carries the bundle's station and event. */
  predicate SameSource(b: MWTBundle.Bundle, n: nat, p: Params, tk: Toolkit)
  {
    forall j: nat :: j < n && BandSeries(b, j, p, tk).Ok? ==>
      && GetString(BandSeries(b, j, p, tk).value.md, "sta") == GetString(b.md, "sta")
      && GetInt(BandSeries(b, j, p, tk).value.md, "evid") == GetInt(b.md, "evid")
  }

  /** The PMTimeSeries constructors keep the station and event of the bundle in every band. */
  lemma ConstructorsKeepSource(b: MWTBundle.Bundle, n: nat, p: Params, tk: Toolkit)
    requires Usable(b) && ParamsSound(p) && Constructors(tk)
    ensures SameSource(b, n, p, tk)
  {
    forall j: nat | j < n && BandSeries(b, j, p, tk).Ok?
      ensures GetString(BandSeries(b, j, p, tk).value.md, "sta") == GetString(b.md, "sta")
      ensures GetInt(BandSeries(b, j, p, tk).value.md, "evid") == GetInt(b.md, "evid")
    {
      BandSeriesChoice(b, j, p, tk);
    }
  }

  /**
   * With the as-written name, a band loop over series of one station and
   * event that runs to the end leaves a single file for the row, holding
   * the last band's series: every earlier band is overwritten.
   */
  lemma AsWrittenKeepsLastBand(files: map<string, PMValue>, b: MWTBundle.Bundle, n: nat, p: Params, tk: Toolkit)
    requires n >= 1 && SameSource(b, n, p, tk)
    requires BandsUpTo(files, BandStepOf(b, p, tk, FileNameAsWritten), n).failure.None?
    ensures FileNameAsWritten(b.md, p.outdir, p.obname, 0).Ok?
    ensures forall j :: 0 <= j < n ==>
      BandOutput(b, j, p, tk, FileNameAsWritten).Ok?
      && BandOutput(b, j, p, tk, FileNameAsWritten).value.0 == FileNameAsWritten(b.md, p.outdir, p.obname, 0).value
    ensures BandsUpTo(files, BandStepOf(b, p, tk, FileNameAsWritten), n).files
      == files[FileNameAsWritten(b.md, p.outdir, p.obname, 0).value := BandSeries(b, n - 1, p, tk).value]
  {
    AsWrittenLastFile(files, b, n, p, tk);
    BandsKeepFiles(files, b, n, p, tk, FileNameAsWritten);
    AsWrittenOneName(b, n, p, tk);
  }

  /** The directory after the as-written band loop: one file, the last band's series. */
  lemma {:induction false} AsWrittenLastFile(files: map<string, PMValue>, b: MWTBundle.Bundle, n: nat, p: Params, tk: Toolkit)
    requires n >= 1 && SameSource(b, n, p, tk)
    requires BandsUpTo(files, BandStepOf(b, p, tk, FileNameAsWritten), n).failure.None?
    ensures FileNameAsWritten(b.md, p.outdir, p.obname, 0).Ok?
    ensures BandsUpTo(files, BandStepOf(b, p, tk, FileNameAsWritten), n).files
      == files[FileNameAsWritten(b.md, p.outdir, p.obname, 0).value := BandSeries(b, n - 1, p, tk).value]
    decreases n
  {
    var step := BandStepOf(b, p, tk, FileNameAsWritten);
    var s := BandsUpTo(files, step, n - 1);
    if n > 1 {
      assert SameSource(b, n - 1, p, tk);
      AsWrittenLastFile(files, b, n - 1, p, tk);
    }
    assert step(s.files, n - 1) == SaveBand(s.files, b, n - 1, p, tk, FileNameAsWritten);
    AsWrittenBandStep(s.files, b, n - 1, p, tk);
  }

  /** Every band built from a series of the bundle's station and event is named as band 0 is. */
  lemma AsWrittenOneName(b: MWTBundle.Bundle, n: nat, p: Params, tk: Toolkit)
    requires SameSource(b, n, p, tk)
    ensures forall j :: 0 <= j < n && BandOutput(b, j, p, tk, FileNameAsWritten).Ok? ==>
      BandOutput(b, j, p, tk, FileNameAsWritten).value.0 == FileNameAsWritten(b.md, p.outdir, p.obname, 0).value
  {
    forall j | 0 <= j < n && BandOutput(b, j, p, tk, FileNameAsWritten).Ok?
      ensures BandOutput(b, j, p, tk, FileNameAsWritten).value.0 == FileNameAsWritten(b.md, p.outdir, p.obname, 0).value
    {
      var v := BandSeries(b, j, p, tk).value;
      assert GetString(v.md, "sta") == GetString(b.md, "sta") && GetInt(v.md, "evid") == GetInt(b.md, "evid");
    }
  }

  /** One band saved under the as-written name of a series of the bundle's station and event. */
  lemma AsWrittenBandStep(files: map<string, PMValue>, b: MWTBundle.Bundle, j: nat, p: Params, tk: Toolkit)
    requires SameSource(b, j + 1, p, tk)
    requires SaveBand(files, b, j, p, tk, FileNameAsWritten).Ok?
    ensures FileNameAsWritten(b.md, p.outdir, p.obname, 0).Ok?
    ensures BandOutput(b, j, p, tk, FileNameAsWritten).Ok?
    ensures BandOutput(b, j, p, tk, FileNameAsWritten).value.0 == FileNameAsWritten(b.md, p.outdir, p.obname, 0).value
    ensures SaveBand(files, b, j, p, tk, FileNameAsWritten).value
      == files[FileNameAsWritten(b.md, p.outdir, p.obname, 0).value := BandSeries(b, j, p, tk).value]
  {
    var v := BandSeries(b, j, p, tk).value;
    assert GetString(v.md, "sta") == GetString(b.md, "sta") && GetInt(v.md, "evid") == GetInt(b.md, "evid");
  }

  /** The band loop of main: bands 0..nbands-1 in order; an exception ends the loop. */
  method SaveBands(files: map<string, PMValue>, b: MWTBundle.Bundle, nbands: nat, p: Params, tk: Toolkit,
                   naming: Naming) returns (s: Saved)
    ensures s == BandsUpTo(files, BandStepOf(b, p, tk, naming), nbands)
  {
    var step := BandStepOf(b, p, tk, naming);
    var disk := files;
    var j: nat := 0;
    while j < nbands
      invariant j <= nbands
      invariant BandsUpTo(files, step, j) == Saved(disk, None)
    {
      var r := SaveOneBand(disk, b, j, p, tk, naming);
      if r.Err? {
        BandFailurePersists(files, step, j + 1, nbands);
        return Saved(disk, Some(r.failure));
      }
      disk := r.value;
      j := j + 1;
    }
    s := Saved(disk, None);
  }

  /** One pass of the band loop: the constructor main chooses, then save_pmts. */
  method SaveOneBand(files: map<string, PMValue>, b: MWTBundle.Bundle, band: nat, p: Params, tk: Toolkit,
                     naming: Naming) returns (r: Result<map<string, PMValue>>)
    ensures r == BandStepOf(b, p, tk, naming)(files, band)
  {
    var v := BandSeries(b, band, p, tk);
    if v.Err? {
      return Err(v.failure);
    }
    r := SavePmts(files, v.value, p.outdir, p.obname, band, naming, tk.opens);
  }

  // ---------------------------------------------------------------------
  // The row loop
  // ---------------------------------------------------------------------

  /** What main reports for a row: written, skipped for its sample interval, or skipped on a SeisppError. */
  datatype RowEvent = Written | OffRate | Skipped(failure: Failure)

  datatype RowResult = RowResult(files: map<string, PMValue>, event: RowEvent)

  /** The seismogram with the alignment time posted when aligning on t0. */
  function Aligned(d: Seis3C, p: Params): (r: Seis3C)
    ensures p.alignWithT0 ==> GetReal(r.md, AlignKey) == Ok(d.t0 + p.t0Offset)
    ensures r == d.(md := r.md)
    ensures forall key :: key in d.md && key != AlignKey ==> key in r.md && r.md[key] == d.md[key]
    ensures !p.alignWithT0 ==> r == d
  {
    if p.alignWithT0 then d.(md := d.md[AlignKey := RealValue(d.t0 + p.t0Offset)]) else d
  }

  /**
   * One row: the constructor's outcome, the sample-interval test (whose
   * warning reads "sta" and so can throw), alignment, transform and the
   * band loop.
   */
  function RowDone(files: map<string, PMValue>, row: Result<Seis3C>, nbands: nat, p: Params, tk: Toolkit,
                   naming: Naming): RowResult
  {
    if row.Err? then RowResult(files, Skipped(row.failure))
    else if !DtOk(row.value.dt, p.targetDt, p.tolerance) then
      RowResult(files, if GetString(row.value.md, "sta").Err? then Skipped(Thrown(MetadataGetError)) else OffRate)
    else
      var d := tk.reference(Aligned(row.value, p), AlignKey, p.cut);
      if d.Err? then RowResult(files, Skipped(d.failure))
      else
        var b := tk.transform(d.value);
        if b.Err? then RowResult(files, Skipped(b.failure))
        else
          var s := BandsUpTo(files, BandStepOf(b.value, p, tk, naming), nbands);
          RowResult(s.files, if s.failure.Some? then Skipped(s.failure.value) else Written)
  }

  /**
   * What a row leaves: no file is ever removed; a row that fails before the
   * band loop, or whose sample interval is off, leaves the directory as it
   * was; a row is written only when its interval passes and every band was
   * built.
   */
  lemma RowDoneEffects(files: map<string, PMValue>, row: Result<Seis3C>, nbands: nat, p: Params, tk: Toolkit,
                       naming: Naming)
    ensures var r := RowDone(files, row, nbands, p, tk, naming);
      && files.Keys <= r.files.Keys
      && (row.Err? ==> r == RowResult(files, Skipped(row.failure)))
      && (row.Ok? && !DtOk(row.value.dt, p.targetDt, p.tolerance) ==> r.files == files && r.event != Written)
      && (r.event == OffRate ==> r.files == files && row.Ok? && GetString(row.value.md, "sta").Ok?)
      && (r.event == Written ==> row.Ok? && DtOk(row.value.dt, p.targetDt, p.tolerance))
  {
    if row.Ok? && DtOk(row.value.dt, p.targetDt, p.tolerance) {
      var d := tk.reference(Aligned(row.value, p), AlignKey, p.cut);
      if d.Ok? && tk.transform(d.value).Ok? {
        BandsKeepFiles(files, tk.transform(d.value).value, nbands, p, tk, naming);
      }
    }
  }

  /** The body of the row loop, with the SeisppError handler. */
  method ProcessRow(files: map<string, PMValue>, row: Result<Seis3C>, nbands: nat, p: Params, tk: Toolkit,
                    naming: Naming) returns (r: RowResult)
    ensures r == RowDone(files, row, nbands, p, tk, naming)
  {
    if row.Err? {
      return RowResult(files, Skipped(row.failure));
    }
    var d := row.value;
    if !DtOk(d.dt, p.targetDt, p.tolerance) {
      var sta := GetString(d.md, "sta");
      if sta.Err? {
        return RowResult(files, Skipped(sta.failure));
      }
      return RowResult(files, OffRate);
    }
    d := Aligned(d, p);
    var relative := tk.reference(d, AlignKey, p.cut);
    if relative.Err? {
      return RowResult(files, Skipped(relative.failure));
    }
    var transformed := tk.transform(relative.value);
    if transformed.Err? {
      return RowResult(files, Skipped(transformed.failure));
    }
    var s := SaveBands(files, transformed.value, nbands, p, tk, naming);
    r := RowResult(s.files, if s.failure.Some? then Skipped(s.failure.value) else Written);
  }

  /** A pass of a row loop over a directory. */
  type RowStep = (map<string, PMValue>, Result<Seis3C>) -> RowResult

  /** The pass of main's row loop. */
  function RowStepOf(nbands: nat, p: Params, tk: Toolkit, naming: Naming): RowStep
  {
    (files: map<string, PMValue>, row: Result<Seis3C>) => RowDone(files, row, nbands, p, tk, naming)
  }

  /** The directory and the per-row log after the first n rows. */
  datatype Outcome = Outcome(files: map<string, PMValue>, log: seq<RowEvent>)

  function RowsUpTo(disk: map<string, PMValue>, rows: seq<Result<Seis3C>>, n: nat, step: RowStep): (o: Outcome)
    requires n <= |rows|
    ensures |o.log| == n
  {
    if n == 0 then Outcome(disk, [])
    else
      var o := RowsUpTo(disk, rows, n - 1, step);
      var r := step(o.files, rows[n - 1]);
      Outcome(r.files, o.log + [r.event])
  }

  /** What row i's own pass reports, on the directory the rows before it left. */
  function EventOfRow(disk: map<string, PMValue>, rows: seq<Result<Seis3C>>, i: nat, step: RowStep): RowEvent
    requires i < |rows|
  {
    step(RowsUpTo(disk, rows, i, step).files, rows[i]).event
  }

  /**
   * Every row gets its own log entry, the one its pass reports: a skipped
   * row does not end the run or change the entries of the rows after it.
   */
  lemma {:induction false} RowsUpToLog(disk: map<string, PMValue>, rows: seq<Result<Seis3C>>, n: nat, step: RowStep)
    requires n <= |rows|
    ensures forall i :: 0 <= i < n ==> RowsUpTo(disk, rows, n, step).log[i] == EventOfRow(disk, rows, i, step)
    decreases n
  {
    if n > 0 {
      RowsUpToLog(disk, rows, n - 1, step);
      var o := RowsUpTo(disk, rows, n - 1, step);
      var log := RowsUpTo(disk, rows, n, step).log;
      assert log == o.log + [EventOfRow(disk, rows, n - 1, step)];
      forall i | 0 <= i < n
        ensures log[i] == EventOfRow(disk, rows, i, step)
      {
        if i < n - 1 {
          assert log[i] == o.log[i];
        }
      }
    }
  }

  /** No row of main removes a file. */
  lemma {:induction false} RowsKeepFiles(disk: map<string, PMValue>, rows: seq<Result<Seis3C>>, n: nat, nbands: nat,
                                         p: Params, tk: Toolkit, naming: Naming)
    requires n <= |rows|
    ensures disk.Keys <= RowsUpTo(disk, rows, n, RowStepOf(nbands, p, tk, naming)).files.Keys
    decreases n
  {
    if n > 0 {
      RowsKeepFiles(disk, rows, n - 1, nbands, p, tk, naming);
      var o := RowsUpTo(disk, rows, n - 1, RowStepOf(nbands, p, tk, naming));
      RowDoneEffects(o.files, rows[n - 1], nbands, p, tk, naming);
    }
  }

  /** The row loop of main. */
  method ProcessRows(disk: map<string, PMValue>, rows: seq<Result<Seis3C>>, nbands: nat, p: Params, tk: Toolkit,
                     naming: Naming) returns (o: Outcome)
    ensures o == RowsUpTo(disk, rows, |rows|, RowStepOf(nbands, p, tk, naming))
  {
    var step := RowStepOf(nbands, p, tk, naming);
    var files := disk;
    var log: seq<RowEvent> := [];
    var i := 0;
    while i < |rows|
      invariant 0 <= i <= |rows|
      invariant RowsUpTo(disk, rows, i, step) == Outcome(files, log)
    {
      var r := ProcessRow(files, rows[i], nbands, p, tk, naming);
      files := r.files;
      log := log + [r.event];
      i := i + 1;
    }
    o := Outcome(files, log);
  }

  /**
   * main after the command line: the parameter block (any failure is
   * exit(-1)), then the row loop over the working view.
   */
  method Run(control: Attributes, disk: map<string, PMValue>, nbands: nat, rows: seq<Result<Seis3C>>,
             tk: Toolkit, naming: Naming) returns (r: Result<Outcome>)
    ensures ReadParams(control).Err? ==> r == Exit(-1)
    ensures ReadParams(control).Ok? ==>
      r == Ok(RowsUpTo(disk, rows, |rows|, RowStepOf(nbands, ReadParams(control).value, tk, naming)))
  {
    var params := ReadParams(control);
    if params.Err? {
      return Exit(-1);
    }
    var o := ProcessRows(disk, rows, nbands, params.value, tk, naming);
    r := Ok(o);
  }
}

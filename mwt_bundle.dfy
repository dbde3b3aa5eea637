/**
 * MWTBundle: the multiwavelet transforms of a group of scalar series, either
 * the three components of one seismogram or the live members of an
 * ensemble.  Member m, band b, wavelet w is one MWTwaveform.
 */
module MWTBundle {
  import opened Failures
  import opened Numerics
  import opened MetadataMaps
  import opened Seismograms
  import opened MWTWaveform
  import MWTMatrix
  import opened DecimalText

  /**
   * The MWTransform processor: its transform of one series (which may
   * throw) and the numbers of wavelet pairs and frequency bands it uses.
   */
  datatype Processor = Processor(
    transform: Series -> Result<MWTMatrix.Matrix>,
    waveletPairs: int,
    frequencies: int)

  datatype Bundle = Bundle(mwtdata: seq<MWTMatrix.Matrix>, nw: int, nb: int, md: Attributes)

  /** A constructed bundle holds at least one valid transform. */
  predicate Valid(b: Bundle)
  {
    |b.mwtdata| > 0 && forall m :: 0 <= m < |b.mwtdata| ==> MWTMatrix.Valid(b.mwtdata[m])
  }

  /** Every member's grid has the bundle's band and wavelet counts. */
  predicate Consistent(b: Bundle)
  {
    forall m :: 0 <= m < |b.mwtdata| ==>
      b.mwtdata[m].nbands == b.nb && b.mwtdata[m].nwavelets == b.nw
  }

  /**
   * The header the 3C constructor posts as written: the seismogram's
   * metadata plus nine puts of tmatrix entries, in the order the source
   * makes them, so that a later put to the same name replaces an earlier one.
   */
  function PostTransformationAsWritten(md: Attributes, t: seq<seq<real>>): Attributes
    requires |t| == 3 && forall i :: 0 <= i < 3 ==> |t[i]| == 3
  {
    md["U11" := RealValue(t[0][0])]
      ["U21" := RealValue(t[1][0])]
      ["U31" := RealValue(t[2][0])]
      ["U21" := RealValue(t[0][1])]
      ["U22" := RealValue(t[1][1])]
      ["U23" := RealValue(t[2][1])]
      ["U31" := RealValue(t[0][2])]
      ["U32" := RealValue(t[1][2])]
      ["U33" := RealValue(t[2][2])]
  }

  /**
   * The posted header keeps only the later of the two puts to U21 and to
   * U31, so tmatrix[1][0] and tmatrix[2][0] are not recorded, and no U12 or
   * U13 is posted.
   */
  lemma PostTransformationEntries(md: Attributes, t: seq<seq<real>>)
    requires |t| == 3 && forall i :: 0 <= i < 3 ==> |t[i]| == 3
    ensures var h := PostTransformationAsWritten(md, t);
      && h["U11"] == RealValue(t[0][0])
      && h["U21"] == RealValue(t[0][1])
      && h["U31"] == RealValue(t[0][2])
      && h["U22"] == RealValue(t[1][1])
      && h["U23"] == RealValue(t[2][1])
      && h["U32"] == RealValue(t[1][2])
      && h["U33"] == RealValue(t[2][2])
      && ("U12" in h <==> "U12" in md) && ("U12" in md ==> h["U12"] == md["U12"])
      && ("U13" in h <==> "U13" in md) && ("U13" in md ==> h["U13"] == md["U13"])
  {
  }

  /**
   * A rotation in the horizontal plane: as written, tmatrix[1][0] = 1 is put
   * under U21 and then overwritten by tmatrix[0][1] = -1, and no U12 is
   * posted; the corrected header records it as U12.
   */
  lemma PostTransformationAsWrittenLosesEntries(md: Attributes)
    requires "U12" !in md
    ensures var t := [[0.0, -1.0, 0.0], [1.0, 0.0, 0.0], [0.0, 0.0, 1.0]];
      && PostTransformationAsWritten(md, t)["U21"] == RealValue(t[0][1]) == RealValue(-1.0)
      && "U12" !in PostTransformationAsWritten(md, t)
      && PostTransformation(md, t)["U21"] == RealValue(t[0][1])
      && PostTransformation(md, t)["U12"] == RealValue(t[1][0]) == RealValue(1.0)
  {
    var t := [[0.0, -1.0, 0.0], [1.0, 0.0, 0.0], [0.0, 0.0, 1.0]];
    PostTransformationEntries(md, t);
    PostTransformationRecordsMatrix(md, t);
  }

  /** The name of entry (i, j) of the transformation matrix: U11 ... U33. */
  function EntryName(i: int, j: int): string
    requires 0 <= i < 3 && 0 <= j < 3
  {
    ['U', "123"[i], "123"[j]]
  }

  /**
   * The header the 3C constructor evidently means to post.  Seven of its nine
   * puts name U<r><c> after tmatrix[c-1][r-1] (U21 from tmatrix[0][1], U23
   * from tmatrix[2][1], ...); only the puts of tmatrix[1][0] and tmatrix[2][0]
   * reuse U21 and U31.  The correction posts those two as U12 and U13 and
   * keeps every other put as written, so U<i+1><j+1> holds tmatrix[j][i].
   */
  function PostTransformation(md: Attributes, t: seq<seq<real>>): Attributes
    requires |t| == 3 && forall i :: 0 <= i < 3 ==> |t[i]| == 3
  {
    md["U11" := RealValue(t[0][0])]
      ["U12" := RealValue(t[1][0])]
      ["U13" := RealValue(t[2][0])]
      ["U21" := RealValue(t[0][1])]
      ["U22" := RealValue(t[1][1])]
      ["U23" := RealValue(t[2][1])]
      ["U31" := RealValue(t[0][2])]
      ["U32" := RealValue(t[1][2])]
      ["U33" := RealValue(t[2][2])]
  }

  /**
   * The corrected header records every entry of the matrix under its own
   * name, tmatrix[j][i] as U<i+1><j+1> (the convention of the puts as written
   * apart from the first two), and keeps every other attribute of the seismogram.
   */
  lemma PostTransformationRecordsMatrix(md: Attributes, t: seq<seq<real>>)
    requires |t| == 3 && forall i :: 0 <= i < 3 ==> |t[i]| == 3
    ensures forall i, j :: 0 <= i < 3 && 0 <= j < 3 ==>
      PostTransformation(md, t)[EntryName(i, j)] == RealValue(t[j][i])
    ensures forall key :: key in md && (forall i, j :: 0 <= i < 3 && 0 <= j < 3 ==> key != EntryName(i, j)) ==>
      key in PostTransformation(md, t) && PostTransformation(md, t)[key] == md[key]
  {
    var h := PostTransformation(md, t);
    forall i, j | 0 <= i < 3 && 0 <= j < 3
      ensures h[EntryName(i, j)] == RealValue(t[j][i])
    {
      assert EntryName(0, 0) == "U11" && EntryName(1, 0) == "U21" && EntryName(2, 0) == "U31";
      assert EntryName(0, 1) == "U12" && EntryName(1, 1) == "U22" && EntryName(2, 1) == "U32";
      assert EntryName(0, 2) == "U13" && EntryName(1, 2) == "U23" && EntryName(2, 2) == "U33";
    }
    forall key | key in md && (forall i, j :: 0 <= i < 3 && 0 <= j < 3 ==> key != EntryName(i, j))
      ensures key in h && h[key] == md[key]
    {
      assert key != EntryName(0, 0) && key != EntryName(1, 0) && key != EntryName(2, 0);
      assert key != EntryName(0, 1) && key != EntryName(1, 1) && key != EntryName(2, 1);
      assert key != EntryName(0, 2) && key != EntryName(1, 2) && key != EntryName(2, 2);
    }
  }

  /**
   * The three-component constructor.  `extract` is ExtractComponent and
   * `tmatrix` the seismogram's transformation matrix.  Each component is
   * transformed in turn; the first transform that throws ends construction.
   */
  method From3C(d: Seis3C, tmatrix: seq<seq<real>>, extract: (Seis3C, int) -> Series, proc: Processor)
    returns (r: Result<Bundle>)
    requires |tmatrix| == 3 && forall i :: 0 <= i < 3 ==> |tmatrix[i]| == 3
    ensures r.Ok? <==> forall c :: 0 <= c < 3 ==> proc.transform(extract(d, c)).Ok?
    ensures r.Err? ==>
      exists c :: (0 <= c < 3 && proc.transform(extract(d, c)).Err?
                   && r.failure == proc.transform(extract(d, c)).failure
                   && forall e :: 0 <= e < c ==> proc.transform(extract(d, e)).Ok?)
    ensures r.Ok? ==>
      && |r.value.mwtdata| == 3
      && (forall c :: 0 <= c < 3 ==> r.value.mwtdata[c] == proc.transform(extract(d, c)).value)
      && r.value.nw == proc.waveletPairs && r.value.nb == proc.frequencies
      && r.value.md == PostTransformation(d.md, tmatrix)
  {
    var md := PostTransformation(d.md, tmatrix);
    var mwtdata: seq<MWTMatrix.Matrix> := [];
    var i := 0;
    while i < 3
      invariant 0 <= i <= 3
      invariant |mwtdata| == i
      invariant forall c :: 0 <= c < i ==> proc.transform(extract(d, c)).Ok?
      invariant forall c :: 0 <= c < i ==> mwtdata[c] == proc.transform(extract(d, c)).value
    {
      var comp := extract(d, i);
      var t := proc.transform(comp);
      if t.Err? {
        return t.PropagateFailure();
      }
      mwtdata := mwtdata + [t.value];
      i := i + 1;
    }
    r := Ok(Bundle(mwtdata, proc.waveletPairs, proc.frequencies, md));
  }

  /** The dt of the last live member among the first i, if any is live. */
  function LastLiveDt(members: seq<Series>, i: int): (r: Option<real>)
    requires 0 <= i <= |members|
    ensures r.Some? <==> exists k :: 0 <= k < i && members[k].live
  {
    if i == 0 then None
    else if members[i - 1].live then Some(members[i - 1].dt)
    else LastLiveDt(members, i - 1)
  }

  /** A remembered dt is the dt of some earlier live member. */
  lemma LastLiveDtIsLiveDt(members: seq<Series>, i: int)
    requires 0 <= i <= |members| && LastLiveDt(members, i).Some?
    ensures exists k :: 0 <= k < i && members[k].live && members[k].dt == LastLiveDt(members, i).value
  {
    if !members[i - 1].live {
      LastLiveDtIsLiveDt(members, i - 1);
    }
  }

  /**
   * The sample-rate test as written: a DEAD member that follows a live one
   * must share the dt of the most recent live member.  Live members are
   * never compared with one another.
   */
  predicate RateMismatchAt(members: seq<Series>, i: int)
    requires 0 <= i < |members|
  {
    !members[i].live && LastLiveDt(members, i).Some? && members[i].dt != LastLiveDt(members, i).value
  }

  /** The sample-rate test as evidently meant: a LIVE member must share the dt of the live one before it. */
  predicate LiveRateMismatchAt(members: seq<Series>, i: int)
    requires 0 <= i < |members|
  {
    members[i].live && LastLiveDt(members, i).Some? && members[i].dt != LastLiveDt(members, i).value
  }

  /** Every live member shares a dt. */
  predicate CommonLiveRate(members: seq<Series>)
  {
    forall i, j :: 0 <= i < |members| && 0 <= j < |members| && members[i].live && members[j].live ==>
      members[i].dt == members[j].dt
  }

  /** The sample-rate loop as written. */
  method RateTestAsWritten(members: seq<Series>) returns (ok: bool)
    ensures ok <==> forall i :: 0 <= i < |members| ==> !RateMismatchAt(members, i)
  {
    var hasLive := false;
    var dttest := 0.0;
    var i := 0;
    while i < |members|
      invariant 0 <= i <= |members|
      invariant hasLive <==> LastLiveDt(members, i).Some?
      invariant hasLive ==> dttest == LastLiveDt(members, i).value
      invariant forall k :: 0 <= k < i ==> !RateMismatchAt(members, k)
    {
      if members[i].live {
        hasLive := true;
        dttest := members[i].dt;
      } else if hasLive {
        if members[i].dt != dttest {
          assert RateMismatchAt(members, i);
          return false;
        }
      }
      i := i + 1;
    }
    return true;
  }

  /** The sample-rate loop with the comparison made between live members. */
  method RateTest(members: seq<Series>) returns (ok: bool)
    ensures ok <==> forall i :: 0 <= i < |members| ==> !LiveRateMismatchAt(members, i)
  {
    var hasLive := false;
    var dttest := 0.0;
    var i := 0;
    while i < |members|
      invariant 0 <= i <= |members|
      invariant hasLive <==> LastLiveDt(members, i).Some?
      invariant hasLive ==> dttest == LastLiveDt(members, i).value
      invariant forall k :: 0 <= k < i ==> !LiveRateMismatchAt(members, k)
    {
      if members[i].live {
        if hasLive && members[i].dt != dttest {
          assert LiveRateMismatchAt(members, i);
          return false;
        }
        hasLive := true;
        dttest := members[i].dt;
      }
      i := i + 1;
    }
    return true;
  }

  /** With no live mismatch before i, every live member before i has the remembered dt. */
  lemma {:induction false} LiveDtsAgree(members: seq<Series>, i: int)
    requires 0 <= i <= |members|
    requires forall k :: 0 <= k < i ==> !LiveRateMismatchAt(members, k)
    ensures LastLiveDt(members, i).Some? ==>
      forall k :: 0 <= k < i && members[k].live ==> members[k].dt == LastLiveDt(members, i).value
  {
    if i > 0 {
      LiveDtsAgree(members, i - 1);
      if members[i - 1].live && LastLiveDt(members, i - 1).Some? {
        assert !LiveRateMismatchAt(members, i - 1);
      }
    }
  }

  /** The corrected test passes exactly when every live member shares a dt. */
  lemma RateTestMeansCommonRate(members: seq<Series>)
    ensures (forall i :: 0 <= i < |members| ==> !LiveRateMismatchAt(members, i)) <==> CommonLiveRate(members)
  {
    if forall i :: 0 <= i < |members| ==> !LiveRateMismatchAt(members, i) {
      LiveDtsAgree(members, |members|);
    } else {
      var i :| 0 <= i < |members| && LiveRateMismatchAt(members, i);
      LastLiveDtIsLiveDt(members, i);
    }
  }

  /**
   * The two tests disagree both ways: two live members with different rates
   * pass the test as written, and a dead member with another rate fails it.
   */
  lemma RateTestsDisagree(md: Attributes)
    ensures var twoRates := [Series(true, 1, 1.0, 0.0, [0.0], md), Series(true, 1, 2.0, 0.0, [0.0], md)];
      && (forall i :: 0 <= i < 2 ==> !RateMismatchAt(twoRates, i))
      && LiveRateMismatchAt(twoRates, 1) && !CommonLiveRate(twoRates)
    ensures var deadOther := [Series(true, 1, 1.0, 0.0, [0.0], md), Series(false, 1, 2.0, 0.0, [0.0], md)];
      && RateMismatchAt(deadOther, 1)
      && (forall i :: 0 <= i < 2 ==> !LiveRateMismatchAt(deadOther, i)) && CommonLiveRate(deadOther)
  {
    var twoRates := [Series(true, 1, 1.0, 0.0, [0.0], md), Series(true, 1, 2.0, 0.0, [0.0], md)];
    assert LastLiveDt(twoRates, 1) == Some(1.0);
    assert !CommonLiveRate(twoRates) by {
      assert twoRates[0].dt != twoRates[1].dt;
    }
    var deadOther := [Series(true, 1, 1.0, 0.0, [0.0], md), Series(false, 1, 2.0, 0.0, [0.0], md)];
    assert LastLiveDt(deadOther, 1) == Some(1.0);
  }

  /** The transforms of the live members whose transform succeeds, in ensemble order. */
  function Survivors(members: seq<Series>, proc: Processor): seq<MWTMatrix.Matrix>
  {
    if members == [] then []
    else
      var rest := Survivors(members[..|members| - 1], proc);
      var last := members[|members| - 1];
      if last.live && proc.transform(last).Ok? then rest + [proc.transform(last).value] else rest
  }

  /** Every survivor is the transform of a live member, and each such transform survives. */
  lemma {:induction false} SurvivorsAreTransformedLiveMembers(members: seq<Series>, proc: Processor, x: MWTMatrix.Matrix)
    ensures x in Survivors(members, proc) <==>
      exists k :: 0 <= k < |members| && members[k].live && proc.transform(members[k]) == Ok(x)
  {
    if members != [] {
      var init := members[..|members| - 1];
      SurvivorsAreTransformedLiveMembers(init, proc, x);
      if exists k :: 0 <= k < |members| && members[k].live && proc.transform(members[k]) == Ok(x) {
        var k :| 0 <= k < |members| && members[k].live && proc.transform(members[k]) == Ok(x);
        if k < |init| {
          assert init[k] == members[k];
        }
      }
      if exists k :: 0 <= k < |init| && init[k].live && proc.transform(init[k]) == Ok(x) {
        var k :| 0 <= k < |init| && init[k].live && proc.transform(init[k]) == Ok(x);
        assert members[k] == init[k];
      }
    }
  }

  const ConstructorError: string := "MWTBundle TimeSeriesEnsemble constructor:  "
  const EmptyEnsemble: string := "No data - ensemble is empty."
  const RateMismatch: string := "Sample rate mismatch in ensemble.\nAll members must have a common sample rate"
  const NothingSurvived: string := "All ensemble members were either dead or failed processing"

  /**
   * The ensemble constructor.  An empty ensemble and a sample-rate mismatch
   * between live members throw; then every live member is transformed, a member whose transform
   * throws is dropped, and the bundle throws if nothing survives.
   */
  method FromEnsemble(members: seq<Series>, md: Attributes, proc: Processor) returns (r: Result<Bundle>)
    ensures |members| == 0 ==> r == Throw(ConstructorError + EmptyEnsemble)
    ensures |members| > 0 && (exists i :: 0 <= i < |members| && LiveRateMismatchAt(members, i)) ==>
      r == Throw(ConstructorError + RateMismatch)
    ensures
      (&& |members| > 0
       && (forall i :: 0 <= i < |members| ==> !LiveRateMismatchAt(members, i))
       && |Survivors(members, proc)| == 0)
      ==> r == Throw(ConstructorError + NothingSurvived)
    ensures r.Ok? <==>
      && |members| > 0
      && (forall i :: 0 <= i < |members| ==> !LiveRateMismatchAt(members, i))
      && |Survivors(members, proc)| > 0
    ensures r.Ok? ==> CommonLiveRate(members)
    ensures r.Ok? ==> r.value == Bundle(Survivors(members, proc), proc.waveletPairs, proc.frequencies, md)
  {
    if |members| == 0 {
      return Throw(ConstructorError + EmptyEnsemble);
    }
    var rateOk := RateTest(members);
    RateTestMeansCommonRate(members);
    if !rateOk {
      return Throw(ConstructorError + RateMismatch);
    }
    var mwtdata: seq<MWTMatrix.Matrix> := [];
    var i := 0;
    while i < |members|
      invariant 0 <= i <= |members|
      invariant mwtdata == Survivors(members[..i], proc)
    {
      assert members[..i + 1][..i] == members[..i];
      if members[i].live {
        var t := proc.transform(members[i]);
        if t.Ok? {
          mwtdata := mwtdata + [t.value];
        }
      }
      i := i + 1;
    }
    assert members[..|members|] == members;
    if |mwtdata| == 0 {
      return Throw(ConstructorError + NothingSurvived);
    }
    r := Ok(Bundle(mwtdata, proc.waveletPairs, proc.frequencies, md));
  }

  /**
   * band_valid_test: "ok" exactly for a band in [0, nb).  The explanation
   * gives nbtest - 1, not nb - 1, as the upper bound.
   */
  function BandValidTest(b: Bundle, nbtest: int): (r: string)
    ensures r == "ok" <==> 0 <= nbtest < b.nb
  {
    if 0 <= nbtest < b.nb then "ok"
    else "Requested invalid band index=" + IntText(nbtest) + "\nMust be between 0 and " + IntText(nbtest - 1) + "\n"
  }

  /**
   * The per-band getters all answer from member 0: a band the bundle
   * rejects throws, otherwise member 0's matrix answers (and may itself throw).
   */
  function F0(b: Bundle, band: int): (r: Result<real>)
    requires Valid(b)
    ensures BandValidTest(b, band) != "ok" ==> r == Throw("MWTBundle::get_f0:  " + BandValidTest(b, band))
    ensures BandValidTest(b, band) == "ok" ==> r == MWTMatrix.F0(b.mwtdata[0], band)
  {
    if BandValidTest(b, band) == "ok" then MWTMatrix.F0(b.mwtdata[0], band)
    else Throw("MWTBundle::get_f0:  " + BandValidTest(b, band))
  }

  function Fw(b: Bundle, band: int): (r: Result<real>)
    requires Valid(b)
    ensures BandValidTest(b, band) != "ok" ==> r == Throw("MWTBundle::get_fw:  " + BandValidTest(b, band))
    ensures BandValidTest(b, band) == "ok" ==> r == MWTMatrix.Fw(b.mwtdata[0], band)
  {
    if BandValidTest(b, band) == "ok" then MWTMatrix.Fw(b.mwtdata[0], band)
    else Throw("MWTBundle::get_fw:  " + BandValidTest(b, band))
  }

  function DecFac(b: Bundle, band: int): (r: Result<int>)
    requires Valid(b)
    ensures BandValidTest(b, band) != "ok" ==> r == Throw("MWTBundle::get_decfac:  " + BandValidTest(b, band))
    ensures BandValidTest(b, band) == "ok" ==> r == MWTMatrix.DecFac(b.mwtdata[0], band)
  {
    if BandValidTest(b, band) == "ok" then MWTMatrix.DecFac(b.mwtdata[0], band)
    else Throw("MWTBundle::get_decfac:  " + BandValidTest(b, band))
  }

  function SampleInterval(b: Bundle, band: int): (r: Result<real>)
    requires Valid(b)
    ensures BandValidTest(b, band) != "ok" ==> r == Throw("MWTBundle::sample_interval:  " + BandValidTest(b, band))
    ensures BandValidTest(b, band) == "ok" ==> r == MWTMatrix.SampleInterval(b.mwtdata[0], band)
  {
    if BandValidTest(b, band) == "ok" then MWTMatrix.SampleInterval(b.mwtdata[0], band)
    else Throw("MWTBundle::sample_interval:  " + BandValidTest(b, band))
  }

  /** When every member has the bundle's grid, a getter succeeds exactly for a valid band. */
  lemma GettersSucceedOnValidBands(b: Bundle, band: int)
    requires Valid(b) && Consistent(b)
    ensures F0(b, band).Ok? <==> 0 <= band < b.nb
    ensures Fw(b, band).Ok? <==> 0 <= band < b.nb
    ensures DecFac(b, band).Ok? <==> 0 <= band < b.nb
    ensures SampleInterval(b, band).Ok? <==> 0 <= band < b.nb
  {
  }

  /** The message of operator() asked for a member outside the bundle. */
  function MemberRangeMessage(m: int, size: int): string
  {
    "MWTBundle::operator():Request for data member=" + IntText(m) + " not consistent with MWTBundle size=" + IntText(size)
  }

  /** operator()(b, w, m): member m's waveform for band b and wavelet w. */
  function Element(bundle: Bundle, b: int, w: int, m: int): (r: Result<Waveform>)
    requires forall k :: 0 <= k < |bundle.mwtdata| ==> MWTMatrix.Valid(bundle.mwtdata[k])
    ensures !(0 <= m < |bundle.mwtdata|) ==> r == Throw(MemberRangeMessage(m, |bundle.mwtdata|))
    ensures 0 <= m < |bundle.mwtdata| ==> r == MWTMatrix.Get(bundle.mwtdata[m], b, w)
  {
    if 0 <= m < |bundle.mwtdata| then MWTMatrix.Get(bundle.mwtdata[m], b, w)
    else Throw(MemberRangeMessage(m, |bundle.mwtdata|))
  }

  /** An element lookup succeeds exactly for a member in range and a grid position in range. */
  lemma ElementSucceeds(bundle: Bundle, b: int, w: int, m: int)
    requires Valid(bundle) && Consistent(bundle)
    ensures Element(bundle, b, w, m).Ok? <==>
      0 <= m < |bundle.mwtdata| && 0 <= b < bundle.nb && 0 <= w < bundle.nw
  {
  }

  const SampleOutsideWaveform: string := "MWTBundle::operator()(b, w, m, iz): sample index outside the waveform"

  /**
   * operator()(b, w, m, iz): sample iz of that waveform.  The sample vector
   * is indexed without a check, so an index outside it is undefined
   * behaviour, reported here as Undefined.
   */
  function Sample(bundle: Bundle, b: int, w: int, m: int, iz: int): (r: Result<Complex>)
    requires forall k :: 0 <= k < |bundle.mwtdata| ==> MWTMatrix.Valid(bundle.mwtdata[k])
    ensures r.Ok? <==> Element(bundle, b, w, m).Ok? && 0 <= iz < |Element(bundle, b, w, m).value.s|
    ensures r.Ok? ==> r.value == Element(bundle, b, w, m).value.s[iz]
    ensures Element(bundle, b, w, m).Err? ==> r == Element(bundle, b, w, m).PropagateFailure()
    ensures Element(bundle, b, w, m).Ok? && r.Err? ==> r == Err(Undefined(SampleOutsideWaveform))
  {
    var wf :- Element(bundle, b, w, m);
    if 0 <= iz < |wf.s| then Ok(wf.s[iz]) else Err(Undefined(SampleOutsideWaveform))
  }
}

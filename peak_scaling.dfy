/**
 * peak_scaling: every member of a 3C ensemble, live or not, is divided by
 * its peak 3C amplitude, and its "gain" attribute (1.0 when unset) is
 * multiplied by the same factor.  PeakAmplitude is a SEISPP routine that
 * is not part of this model; it is the parameter peak, applied to the
 * sample buffer.
 */
module PeakScaling {
  import opened Failures
  import opened MetadataMaps
  import opened Seismograms
  import opened Numerics

  /** The gain a member without a "gain" attribute is taken to have. */
  const DefaultGain: real := 1.0

  /** get_double("gain"), with a MetadataGetError caught and replaced by 1.0. */
  function GainOf(md: Attributes): (g: real)
    ensures GetReal(md, "gain").Ok? ==> g == GetReal(md, "gain").value
    ensures GetReal(md, "gain").Err? ==> g == DefaultGain
  {
    var got := GetReal(md, "gain");
    if got.Ok? then got.value else DefaultGain
  }

  /** One member after the loop body: gain and samples both multiplied by 1/amp. */
  function Normalized(d: Seis3C, peak: seq<real> -> real): Seis3C
    requires peak(d.u) != 0.0
  {
    var scaling := 1.0 / peak(d.u);
    d.(md := d.md["gain" := RealValue(GainOf(d.md) * scaling)], u := Scaled(scaling, d.u, |d.u|))
  }

  /**
   * The stored gain tracks the scaling: sample k divided by the gain is the
   * same before and after, and the member's other attributes and fields
   * are kept.
   */
  lemma NormalizedKeepsGainCorrectedSamples(d: Seis3C, peak: seq<real> -> real)
    requires peak(d.u) != 0.0
    ensures var r := Normalized(d, peak);
      && GetReal(r.md, "gain") == Ok(GainOf(d.md) / peak(d.u))
      && r == d.(md := r.md, u := r.u)
      && r.md.Keys == d.md.Keys + {"gain"}
      && (forall key :: key in d.md && key != "gain" ==> r.md[key] == d.md[key])
      && |r.u| == |d.u|
      && (forall k :: 0 <= k < |d.u| ==> r.u[k] * GainOf(d.md) == GainOf(r.md) * d.u[k])
  {
    var r := Normalized(d, peak);
    var a := peak(d.u);
    var g := GainOf(d.md);
    assert GainOf(r.md) == g * (1.0 / a);
    assert g * (1.0 / a) == g / a;
    forall k | 0 <= k < |d.u|
      ensures r.u[k] * g == GainOf(r.md) * d.u[k]
    {
      calc {
        r.u[k] * g;
        (1.0 / a) * d.u[k] * g;
        g * (1.0 / a) * d.u[k];
      }
    }
  }

  /** A peak routine that scales with its argument, |s| * peak(u) for s * u. */
  ghost predicate Homogeneous(peak: seq<real> -> real)
  {
    forall s: real, u: seq<real> {:trigger peak(Scaled(s, u, |u|))} :: peak(Scaled(s, u, |u|)) == Abs(s) * peak(u)
  }

  /** With such a peak routine a member with a positive peak comes out with peak amplitude 1. */
  lemma NormalizedHasUnitPeak(d: Seis3C, peak: seq<real> -> real)
    requires Homogeneous(peak) && peak(d.u) > 0.0
    ensures peak(Normalized(d, peak).u) == 1.0
  {
    var s := 1.0 / peak(d.u);
    assert peak(Scaled(s, d.u, |d.u|)) == Abs(s) * peak(d.u);
  }

  /**
   * main: any command-line argument is the usage exit; otherwise every
   * member is normalized in place, in order, and the ensemble metadata is
   * kept.
   */
  method PeakScale(args: seq<string>, e: Ensemble3C, peak: seq<real> -> real) returns (r: Result<Ensemble3C>)
    requires |args| == 0 ==> forall i :: 0 <= i < |e.members| ==> peak(e.members[i].u) != 0.0
    ensures r.Err? <==> |args| != 0
    ensures r.Err? ==> r == Exit(-1)
    ensures r.Ok? ==> r.value.md == e.md && |r.value.members| == |e.members|
    ensures r.Ok? ==> forall i :: 0 <= i < |e.members| ==> r.value.members[i] == Normalized(e.members[i], peak)
  {
    if |args| != 0 {
      return Exit(-1);
    }
    var ms := e.members;
    var i := 0;
    while i < |ms|
      invariant 0 <= i <= |ms| && |ms| == |e.members|
      invariant forall k :: i <= k < |ms| ==> ms[k] == e.members[k]
      invariant forall k :: 0 <= k < i ==> ms[k] == Normalized(e.members[k], peak)
    {
      var amp := peak(ms[i].u);
      var gain := GainOf(ms[i].md);
      var scaling := 1.0 / amp;
      gain := gain * scaling;
      var u := ScaleSamples(scaling, ms[i].u, |ms[i].u|);
      assert gain == GainOf(e.members[i].md) * (1.0 / peak(e.members[i].u));
      ms := ms[i := ms[i].(md := ms[i].md["gain" := RealValue(gain)], u := u)];
      i := i + 1;
    }
    r := Ok(Ensemble3C(e.md, ms));
  }
}

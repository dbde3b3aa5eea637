/**
 * sphdiv: spherical divergence correction.  Every live member whose
 * "offset" attribute exceeds 0.001 has all 3*ns samples multiplied by
 * pow(offset, power); the power comes from the -power option (default 2.0).
 */
module Sphdiv {
  import opened Failures
  import opened MetadataMaps
  import opened Seismograms
  import opened Numerics

  const DefaultPower: real := 2.0

  /** Offsets at or below this leave a member as it is. */
  const MinOffset: real := 0.001

  /** The command line main accepts: nothing but "-power value" pairs. */
  predicate OptionsValid(args: seq<string>)
    decreases |args|
  {
    |args| == 0 || (|args| >= 2 && args[0] == "-power" && OptionsValid(args[2..]))
  }

  /** The power the options leave, starting from power. */
  function PowerOption(args: seq<string>, atof: string -> real, power: real): real
    requires OptionsValid(args)
    decreases |args|
  {
    if |args| == 0 then power else PowerOption(args[2..], atof, atof(args[1]))
  }

  /** Of several -power options the last one is the one in force. */
  lemma {:induction false} LastPowerWins(args: seq<string>, atof: string -> real, power: real)
    requires OptionsValid(args) && |args| >= 2
    ensures PowerOption(args, atof, power) == atof(args[|args| - 1])
    decreases |args|
  {
    if |args[2..]| >= 2 {
      LastPowerWins(args[2..], atof, atof(args[1]));
      assert args[2..][|args[2..]| - 1] == args[|args| - 1];
    }
  }

  /** The option loop of main: anything but -power, or -power without a value, is the usage exit. */
  method ParseOptions(args: seq<string>, atof: string -> real) returns (r: Result<real>)
    ensures r.Ok? <==> OptionsValid(args)
    ensures r.Ok? ==> r.value == PowerOption(args, atof, DefaultPower)
    ensures r.Err? ==> r == Exit(-1)
  {
    var power := DefaultPower;
    var i := 0;
    while i < |args|
      invariant 0 <= i <= |args|
      invariant OptionsValid(args) <==> OptionsValid(args[i..])
      invariant OptionsValid(args) ==> PowerOption(args, atof, DefaultPower) == PowerOption(args[i..], atof, power)
    {
      if args[i] != "-power" || i + 1 >= |args| {
        return Exit(-1);
      }
      assert args[i..][2..] == args[i + 2..];
      power := atof(args[i + 1]);
      i := i + 2;
    }
    assert args[i..] == [];
    r := Ok(power);
  }

  /** One member after the correction, or the MetadataGetError of a live member without an offset. */
  function Corrected(d: Seis3C, power: real, num: Numerics): Result<Seis3C>
    requires WellFormed(d)
  {
    if !d.live then Ok(d)
    else
      var offset := GetReal(d.md, "offset");
      if offset.Err? then Throw(MetadataGetError)
      else if offset.value > MinOffset then Ok(d.(u := Scaled(num.pow(offset.value, power), d.u, 3 * d.ns)))
      else Ok(d)
  }

  /**
   * The correction changes nothing but the samples, and those only of a
   * live member with offset > 0.001, each multiplied by pow(offset, power).
   */
  lemma CorrectedScalesSamples(d: Seis3C, power: real, num: Numerics)
    requires WellFormed(d)
    ensures Corrected(d, power, num).Err? <==> d.live && GetReal(d.md, "offset").Err?
    ensures Corrected(d, power, num).Ok? ==>
      var r := Corrected(d, power, num).value;
      && WellFormed(r)
      && r == d.(u := r.u)
      && (r.u != d.u ==> d.live && GetReal(d.md, "offset").value > MinOffset)
    ensures d.live && GetReal(d.md, "offset").Ok? && GetReal(d.md, "offset").value > MinOffset ==>
      var s := num.pow(GetReal(d.md, "offset").value, power);
      forall k :: 0 <= k < |d.u| ==> Corrected(d, power, num).value.u[k] == s * d.u[k]
  {
  }

  /** main: every member corrected in place, in order; a throw leaves nothing written. */
  method SphdivEnsemble(e: Ensemble3C, power: real, num: Numerics) returns (r: Result<Ensemble3C>)
    requires forall i :: 0 <= i < |e.members| ==> WellFormed(e.members[i])
    ensures r.Ok? <==> forall i :: 0 <= i < |e.members| ==> Corrected(e.members[i], power, num).Ok?
    ensures r.Ok? ==> r.value.md == e.md && |r.value.members| == |e.members|
    ensures r.Ok? ==> forall i :: 0 <= i < |e.members| ==> Ok(r.value.members[i]) == Corrected(e.members[i], power, num)
    ensures r.Err? ==> r == Throw(MetadataGetError)
  {
    var ms := e.members;
    var i := 0;
    while i < |ms|
      invariant 0 <= i <= |ms| && |ms| == |e.members|
      invariant forall k :: i <= k < |ms| ==> ms[k] == e.members[k]
      invariant forall k :: 0 <= k < i ==> Ok(ms[k]) == Corrected(e.members[k], power, num)
    {
      if ms[i].live {
        var offset := GetReal(ms[i].md, "offset");
        if offset.Err? {
          return Throw(MetadataGetError);
        }
        if offset.value > MinOffset {
          var scale := num.pow(offset.value, power);
          var u := ScaleSamples(scale, ms[i].u, 3 * ms[i].ns);
          ms := ms[i := ms[i].(u := u)];
        }
      }
      i := i + 1;
    }
    r := Ok(Ensemble3C(e.md, ms));
  }
}

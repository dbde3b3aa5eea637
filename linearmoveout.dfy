/**
 * linearmoveout: every live member of a 3C ensemble gets a new sample
 * buffer computed from its "offset" attribute and a reducing velocity.
 * The shift tshift = t0 - |offset|/vreduce fixes, as a sample number
 * ioffset, the new length ns - ioffset; the buffer is zeroed, t0 moves by
 * the -t0 parameter, and the first min(ns, nsout) input samples are copied
 * to the column lag = sample_number(-|offset|/vreduce) of the new buffer.
 * That copy leaves the buffer unless lag + min(ns, nsout) <= nsout; the
 * model keeps, of each input sample, the copy that lands inside.
 */
module LinearMoveout {
  import opened Failures
  import opened MetadataMaps
  import opened Seismograms
  import opened Numerics

  const DefaultVreduce: real := 6000.0
  const DefaultT0: real := 0.0

  /** sample_number(t) of a seismogram starting at t0 with interval dt. */
  function SampleNumber(t0: real, dt: real, nint: real -> int, t: real): int
    requires dt != 0.0
  {
    nint((t - t0) / dt)
  }

  /** The quantities main derives for one live member with the given offset. */
  datatype Plan = Plan(offset: real, ioffset: int, nsout: int, ncopy: int, lag: int)

  function MoveoutPlan(d: Seis3C, offset: real, vreduce: real, t0: real, nint: real -> int): Plan
    requires d.dt != 0.0 && vreduce != 0.0
  {
    var a := Abs(offset);
    var ioffset := SampleNumber(d.t0, d.dt, nint, t0 - a / vreduce);
    var nsout := d.ns - ioffset;
    var ncopy := if d.ns < nsout then d.ns else nsout;
    Plan(a, ioffset, nsout, ncopy, SampleNumber(d.t0 + t0, d.dt, nint, -a / vreduce))
  }

  /** The sanity check of main: a shift of more samples than the data hold is fatal. */
  predicate Irrational(p: Plan, ns: int)
  {
    p.ioffset > ns || p.ioffset < -ns
  }

  /** The block of 3*ncopy values written at column lag lies inside the new buffer. */
  predicate Fits(p: Plan)
  {
    0 <= p.lag && p.lag + p.ncopy <= p.nsout
  }

  /**
   * The dcopy as written: a zeroed buffer of nsout columns holding the first
   * ncopy columns of u from column lag on, defined when that block fits.
   */
  function MovedSamples(u: seq<real>, nsout: int, ncopy: int, lag: int): (r: seq<real>)
    requires 0 <= ncopy && 3 * ncopy <= |u| && 0 <= lag && lag + ncopy <= nsout
  {
    seq(3 * nsout, k requires 0 <= k < 3 * nsout => if 3 * lag <= k < 3 * (lag + ncopy) then u[k - 3 * lag] else 0.0)
  }

  /** Column j of u sits at column j + lag of the moved buffer; every other column is zero. */
  lemma MovedSamplesColumns(u: seq<real>, nsout: int, ncopy: int, lag: int)
    requires 0 <= ncopy && 3 * ncopy <= |u| && 0 <= lag && lag + ncopy <= nsout
    ensures |MovedSamples(u, nsout, ncopy, lag)| == 3 * nsout
    ensures forall j, c :: 0 <= j < ncopy && 0 <= c < 3 ==>
      ColumnValue(MovedSamples(u, nsout, ncopy, lag), j + lag, c) == ColumnValue(u, j, c)
    ensures forall j, c :: 0 <= j < nsout && (j < lag || lag + ncopy <= j) && 0 <= c < 3 ==>
      ColumnValue(MovedSamples(u, nsout, ncopy, lag), j, c) == 0.0
  {
    var r := MovedSamples(u, nsout, ncopy, lag);
    forall j, c | 0 <= j < ncopy && 0 <= c < 3
      ensures ColumnValue(r, j + lag, c) == ColumnValue(u, j, c)
    {
      assert 3 * (j + lag) + c - 3 * lag == 3 * j + c;
    }
  }

  /**
   * The moved buffer as the shift evidently intends it: nsout zeroed
   * columns, with input column j at column j + lag wherever that column
   * lies inside the buffer.
   */
  function ShiftedSamples(u: seq<real>, nsout: int, lag: int): (r: seq<real>)
    requires nsout >= 0
    ensures |r| == 3 * nsout
  {
    seq(3 * nsout, k requires 0 <= k < 3 * nsout => if 0 <= k - 3 * lag < |u| then u[k - 3 * lag] else 0.0)
  }

  /**
   * Column j of the shifted buffer is input column j - lag when the input
   * has one, and zero otherwise.
   */
  lemma ShiftedSamplesColumns(u: seq<real>, ns: nat, nsout: int, lag: int)
    requires |u| == 3 * ns && nsout >= 0
    ensures forall j, c :: 0 <= j < nsout && 0 <= c < 3 ==>
      ColumnValue(ShiftedSamples(u, nsout, lag), j, c) == if 0 <= j - lag < ns then ColumnValue(u, j - lag, c) else 0.0
  {
    var r := ShiftedSamples(u, nsout, lag);
    forall j, c | 0 <= j < nsout && 0 <= c < 3
      ensures ColumnValue(r, j, c) == if 0 <= j - lag < ns then ColumnValue(u, j - lag, c) else 0.0
    {
      assert 3 * j + c - 3 * lag == 3 * (j - lag) + c;
    }
  }

  /**
   * Wherever the copy as written stays inside its buffer, it writes the
   * shifted buffer.
   */
  lemma ShiftedAgreesWhenFits(u: seq<real>, ns: nat, p: Plan)
    requires |u| == 3 * ns && 0 <= p.nsout && p.ncopy == (if ns < p.nsout then ns else p.nsout) && Fits(p)
    ensures MovedSamples(u, p.nsout, p.ncopy, p.lag) == ShiftedSamples(u, p.nsout, p.lag)
  {
    if p.ncopy < ns {
      assert p.lag == 0;
    }
  }

  /**
   * One live or dead member as main treats it: dead members stay as they
   * are, a missing offset throws, an irrational shift exits with -1, and
   * otherwise the member gets the moved buffer, ns = nsout and t0 + t0.
   */
  function MoveoutOf(d: Seis3C, vreduce: real, t0: real, nint: real -> int): (r: Result<Seis3C>)
    requires WellFormed(d) && d.dt != 0.0 && vreduce != 0.0
  {
    if !d.live then Ok(d)
    else
      var offset := GetReal(d.md, "offset");
      if offset.Err? then Throw(MetadataGetError)
      else
        var p := MoveoutPlan(d, offset.value, vreduce, t0, nint);
        if Irrational(p, d.ns) then Exit(-1)
        else Ok(d.(u := ShiftedSamples(d.u, p.nsout, p.lag), t0 := d.t0 + t0, ns := p.nsout))
  }

  /**
   * What a member becomes: its shape is kept consistent (3*nsout samples),
   * only u, ns and t0 change, and the three outcomes are told apart by the
   * offset attribute and the sanity check.
   */
  lemma MoveoutOfOutcome(d: Seis3C, vreduce: real, t0: real, nint: real -> int)
    requires WellFormed(d) && d.dt != 0.0 && vreduce != 0.0
    ensures !d.live ==> MoveoutOf(d, vreduce, t0, nint) == Ok(d)
    ensures d.live ==> (MoveoutOf(d, vreduce, t0, nint) == Throw(MetadataGetError) <==> GetReal(d.md, "offset").Err?)
    ensures d.live && GetReal(d.md, "offset").Ok? ==>
      (MoveoutOf(d, vreduce, t0, nint) == Exit(-1) <==>
       Irrational(MoveoutPlan(d, GetReal(d.md, "offset").value, vreduce, t0, nint), d.ns))
    ensures MoveoutOf(d, vreduce, t0, nint).Ok? ==> WellFormed(MoveoutOf(d, vreduce, t0, nint).value)
    ensures d.live && MoveoutOf(d, vreduce, t0, nint).Ok? ==>
      var p := MoveoutPlan(d, GetReal(d.md, "offset").value, vreduce, t0, nint);
      var r := MoveoutOf(d, vreduce, t0, nint).value;
      && r == d.(u := r.u, ns := p.nsout, t0 := d.t0 + t0)
      && 0 <= p.nsout <= 2 * d.ns
      && p.ncopy == (if d.ns < p.nsout then d.ns else p.nsout)
  {
    if d.live && GetReal(d.md, "offset").Ok? {
      var p := MoveoutPlan(d, GetReal(d.md, "offset").value, vreduce, t0, nint);
    }
  }

  /**
   * As written, with the default -t0 0 the column lag equals ioffset, so the
   * dcopy stays inside the new buffer only for a zero-sample shift: a
   * positive shift writes ioffset columns past its end and a negative one
   * starts before it.  A zero shift leaves the member as it went in.
   */
  lemma UnshiftedMoveout(d: Seis3C, vreduce: real, nint: real -> int)
    requires WellFormed(d) && d.dt != 0.0 && vreduce != 0.0 && d.live && GetReal(d.md, "offset").Ok?
    ensures var p := MoveoutPlan(d, GetReal(d.md, "offset").value, vreduce, 0.0, nint);
      !Irrational(p, d.ns) ==> (Fits(p) <==> p.ioffset == 0)
    ensures var p := MoveoutPlan(d, GetReal(d.md, "offset").value, vreduce, 0.0, nint);
      p.ioffset > 0 && !Irrational(p, d.ns) ==> p.lag + p.ncopy == p.nsout + p.ioffset
    ensures var p := MoveoutPlan(d, GetReal(d.md, "offset").value, vreduce, 0.0, nint);
      p.ioffset == 0 ==> MoveoutOf(d, vreduce, 0.0, nint) == Ok(d)
  {
    var a := Abs(GetReal(d.md, "offset").value);
    assert (0.0 - a / vreduce) - d.t0 == -a / vreduce - (d.t0 + 0.0);
    var p := MoveoutPlan(d, GetReal(d.md, "offset").value, vreduce, 0.0, nint);
    assert p.lag == p.ioffset;
    if p.ioffset == 0 {
      var m := ShiftedSamples(d.u, p.nsout, p.lag);
      assert m == d.u;
    }
  }

  /**
   * The copy into a zeroed buffer of nsout columns, as a loop over the input
   * values that keeps only those landing inside the buffer.
   */
  method ShiftSamples(u: seq<real>, nsout: int, lag: int) returns (r: seq<real>)
    requires nsout >= 0
    ensures r == ShiftedSamples(u, nsout, lag)
  {
    r := seq(3 * nsout, _ => 0.0);
    var k := 0;
    while k < |u|
      invariant 0 <= k <= |u| && |r| == 3 * nsout
      invariant forall m :: 0 <= m < 3 * nsout ==>
        r[m] == if 0 <= m - 3 * lag < k then u[m - 3 * lag] else 0.0
    {
      if 0 <= 3 * lag + k < 3 * nsout {
        r := r[3 * lag + k := u[k]];
      }
      k := k + 1;
    }
  }

  /** The body of the member loop of main for one member. */
  method Moveout(d: Seis3C, vreduce: real, t0: real, nint: real -> int) returns (r: Result<Seis3C>)
    requires WellFormed(d) && d.dt != 0.0 && vreduce != 0.0
    ensures r == MoveoutOf(d, vreduce, t0, nint)
  {
    if !d.live {
      return Ok(d);
    }
    var got := GetReal(d.md, "offset");
    if got.Err? {
      return Throw(MetadataGetError);
    }
    var offset := Abs(got.value);
    var tshift := t0 - offset / vreduce;
    var ioffset := SampleNumber(d.t0, d.dt, nint, tshift);
    if ioffset > d.ns || ioffset < -d.ns {
      return Exit(-1);
    }
    var nsout := d.ns - ioffset;
    var work := d.(t0 := d.t0 + t0);
    var lag := SampleNumber(work.t0, work.dt, nint, -offset / vreduce);
    var moved := ShiftSamples(d.u, nsout, lag);
    r := Ok(work.(u := moved, ns := nsout));
  }

  /**
   * main: the live members in order; the first missing offset or
   * irrational shift ends the run with nothing written, otherwise every
   * member is replaced by its moved-out version.
   */
  method MoveoutEnsemble(e: Ensemble3C, vreduce: real, t0: real, nint: real -> int) returns (r: Result<Ensemble3C>)
    requires vreduce != 0.0
    requires forall i :: 0 <= i < |e.members| ==>
      WellFormed(e.members[i]) && e.members[i].dt != 0.0
    ensures r.Ok? <==> forall i :: 0 <= i < |e.members| ==> MoveoutOf(e.members[i], vreduce, t0, nint).Ok?
    ensures r.Ok? ==> r.value.md == e.md && |r.value.members| == |e.members|
    ensures r.Ok? ==> forall i :: 0 <= i < |e.members| ==> Ok(r.value.members[i]) == MoveoutOf(e.members[i], vreduce, t0, nint)
    ensures r.Err? ==> exists i :: 0 <= i < |e.members| && Err(r.failure) == MoveoutOf(e.members[i], vreduce, t0, nint)
                                  && (forall k :: 0 <= k < i ==> MoveoutOf(e.members[k], vreduce, t0, nint).Ok?)
  {
    var ms := e.members;
    var i := 0;
    while i < |ms|
      invariant 0 <= i <= |ms| && |ms| == |e.members|
      invariant forall k :: i <= k < |ms| ==> ms[k] == e.members[k]
      invariant forall k :: 0 <= k < i ==> Ok(ms[k]) == MoveoutOf(e.members[k], vreduce, t0, nint)
    {
      var m := Moveout(ms[i], vreduce, t0, nint);
      if m.Err? {
        return Err(m.failure);
      }
      ms := ms[i := m.value];
      i := i + 1;
    }
    r := Ok(Ensemble3C(e.md, ms));
  }
}

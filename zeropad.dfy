/**
 * zeropad: pad_3cseis prepends plen seconds of zeros to a live 3C
 * seismogram and applies a linear taper over the first tlen seconds of the
 * data; main pads every member of an ensemble (defaults -pad 0.1 and
 * -taper 0.01).  Samples sit in column-major order, component c of
 * sample j at u[3*j + c].
 */
module Zeropad {
  import opened Failures
  import opened Numerics
  import opened Seismograms

  const DefaultPad: real := 0.1
  const DefaultTaper: real := 0.01

  const BaseError: string := "pad_3cseis procedure:  "
  const PadTooLong: string := BaseError + "pad length irrational - exceeds data time length"
  const TaperTooLong: string := BaseError + "taper length irrational - exceeds half of data time span"

  /** The taper reaches at most half of the data time span. */
  const TaperMaxFraction: real := 0.5

  /** The weight of data column j under a taper of ntaper samples: (j+1)/ntaper below ntaper-1, 1 from there on. */
  function TaperWeight(j: int, ntaper: int): real
  {
    if 0 <= j < ntaper - 1 then (j + 1) as real / ntaper as real else 1.0
  }

  /**
   * The three loops of pad_3cseis on the sample buffer: zero the first
   * npad columns, copy column j of the data to column j + npad, then scale
   * the copied columns below ntaper - 1 by the running weight.
   */
  method PadSamples(u: seq<real>, ns: nat, npad: nat, ntaper: int) returns (r: seq<real>)
    requires |u| == 3 * ns && ntaper - 1 <= ns
    ensures |r| == 3 * (ns + npad)
    ensures forall k :: 0 <= k < 3 * npad ==> r[k] == 0.0
    ensures forall j, c :: 0 <= j < ns && 0 <= c < 3 ==>
      ColumnValue(r, j + npad, c) == TaperWeight(j, ntaper) * ColumnValue(u, j, c)
  {
    r := seq(3 * (ns + npad), _ => 0.0);
    var i := 0;
    while i < 3 * npad
      invariant 0 <= i <= 3 * npad && |r| == 3 * (ns + npad)
      invariant forall k :: 0 <= k < i ==> r[k] == 0.0
    {
      r := r[i := 0.0];
      i := i + 1;
    }
    r := CopyColumns(u, ns, npad, r);
    if ntaper > 1 {
      r := TaperColumns(u, ns, npad, ntaper, r);
    } else {
      assert forall j :: 0 <= j < ns ==> TaperWeight(j, ntaper) == 1.0;
    }
  }

  /** The copy loop of pad_3cseis: column j of u goes to column j + npad, the zeros before stay. */
  method CopyColumns(u: seq<real>, ns: nat, npad: nat, r0: seq<real>) returns (r: seq<real>)
    requires |u| == 3 * ns && |r0| == 3 * (ns + npad)
    ensures |r| == |r0|
    ensures forall k :: 0 <= k < 3 * npad ==> r[k] == r0[k]
    ensures forall j, c :: 0 <= j < ns && 0 <= c < 3 ==> ColumnValue(r, j + npad, c) == ColumnValue(u, j, c)
  {
    r := r0;
    var j := 0;
    while j < ns
      invariant 0 <= j <= ns && |r| == |r0|
      invariant forall k :: 0 <= k < 3 * npad ==> r[k] == r0[k]
      invariant forall m, c :: 0 <= m < j && 0 <= c < 3 ==> ColumnValue(r, m + npad, c) == ColumnValue(u, m, c)
    {
      var b := 3 * (j + npad);
      r := r[b := u[3 * j]][b + 1 := u[3 * j + 1]][b + 2 := u[3 * j + 2]];
      assert forall c :: 0 <= c < 3 ==> ColumnValue(r, j + npad, c) == ColumnValue(u, j, c);
      j := j + 1;
    }
  }

  /**
   * The taper loop of pad_3cseis: the weight starts at 1/ntaper and grows
   * by 1/ntaper per column, so column j + npad is scaled by (j+1)/ntaper
   * for j below ntaper - 1.
   */
  method TaperColumns(u: seq<real>, ns: nat, npad: nat, ntaper: int, r0: seq<real>) returns (r: seq<real>)
    requires |u| == 3 * ns && |r0| == 3 * (ns + npad) && 1 < ntaper && ntaper - 1 <= ns
    requires forall j, c :: 0 <= j < ns && 0 <= c < 3 ==> ColumnValue(r0, j + npad, c) == ColumnValue(u, j, c)
    ensures |r| == |r0|
    ensures forall k :: 0 <= k < 3 * npad ==> r[k] == r0[k]
    ensures forall j, c :: 0 <= j < ns && 0 <= c < 3 ==>
      ColumnValue(r, j + npad, c) == TaperWeight(j, ntaper) * ColumnValue(u, j, c)
  {
    r := r0;
    var wt0 := 1.0 / ntaper as real;
    var wt := wt0;
    var j := 0;
    while j < ntaper - 1
      invariant 0 <= j <= ntaper - 1 && |r| == |r0|
      invariant wt == (j + 1) as real * wt0
      invariant forall k :: 0 <= k < 3 * npad ==> r[k] == r0[k]
      invariant TaperedBelow(r, u, ns, npad, ntaper, j)
    {
      WeightStep(j, ntaper);
      r := TaperStep(u, ns, npad, ntaper, j, wt, r);
      RunningWeight(j, wt0);
      j := j + 1;
      wt := wt + wt0;
    }
  }

  /**
   * Columns below j scaled by their taper weight, the later ones as
   * copied: the state of the taper loop after j passes.
   */
  ghost predicate TaperedBelow(r: seq<real>, u: seq<real>, ns: nat, npad: nat, ntaper: int, j: int)
    requires |u| == 3 * ns && |r| == 3 * (ns + npad)
  {
    forall m, c :: 0 <= m < ns && 0 <= c < 3 ==>
      ColumnValue(r, m + npad, c) == (if m < j then TaperWeight(m, ntaper) else 1.0) * ColumnValue(u, m, c)
  }

  /** One pass of the taper loop: column j + npad scaled by the running weight. */
  method TaperStep(u: seq<real>, ns: nat, npad: nat, ntaper: int, j: nat, wt: real, r0: seq<real>) returns (r: seq<real>)
    requires |u| == 3 * ns && |r0| == 3 * (ns + npad) && j < ns
    requires wt == TaperWeight(j, ntaper)
    requires TaperedBelow(r0, u, ns, npad, ntaper, j)
    ensures |r| == |r0|
    ensures forall k :: 0 <= k < 3 * npad ==> r[k] == r0[k]
    ensures TaperedBelow(r, u, ns, npad, ntaper, j + 1)
  {
    r := ScaleColumn(r0, j + npad, wt);
    forall m, c | 0 <= m < ns && 0 <= c < 3
      ensures ColumnValue(r, m + npad, c) == (if m < j + 1 then TaperWeight(m, ntaper) else 1.0) * ColumnValue(u, m, c)
    {
      if m != j {
        assert ColumnValue(r, m + npad, c) == ColumnValue(r0, m + npad, c);
      }
    }
  }

  /** The running weight after j steps is the taper weight of column j. */
  lemma WeightStep(j: int, ntaper: int)
    requires 0 <= j < ntaper - 1
    ensures TaperWeight(j, ntaper) == (j + 1) as real * (1.0 / ntaper as real)
  {
  }

  lemma RunningWeight(j: int, wt0: real)
    ensures (j + 1) as real * wt0 + wt0 == (j + 2) as real * wt0
  {
  }

  /** One pass of the taper loop body: the three components of column col are scaled by wt. */
  method ScaleColumn(r0: seq<real>, col: nat, wt: real) returns (r: seq<real>)
    requires 3 * col + 3 <= |r0|
    ensures |r| == |r0|
    ensures forall c :: 0 <= c < 3 ==> ColumnValue(r, col, c) == wt * ColumnValue(r0, col, c)
    ensures forall k :: 0 <= k < 3 * col ==> r[k] == r0[k]
    ensures forall m, c :: 0 <= m && m != col && 0 <= c < 3 && 3 * m + c < |r0| ==> ColumnValue(r, m, c) == ColumnValue(r0, m, c)
  {
    var b := 3 * col;
    r := r0[b := r0[b] * wt][b + 1 := r0[b + 1] * wt][b + 2 := r0[b + 2] * wt];
  }

  /** a <= b * dt with dt > 0 bounds a / dt by b. */
  lemma QuotientBound(a: real, b: real, dt: real)
    requires dt > 0.0 && a <= b * dt
    ensures a / dt <= b
  {
    var q := a / dt;
    assert q * dt == a;
    assert (q - b) * dt <= 0.0;
  }

  /** The taper check keeps the tapered columns inside the data. */
  lemma TaperInsideData(ns: int, dt: real, tlen: real)
    requires dt > 0.0 && ns >= 0
    requires tlen <= TaperMaxFraction * (EndTime(0.0, ns, dt) - 0.0)
    ensures CTrunc(tlen / dt) - 1 <= ns
  {
    var q := tlen / dt;
    QuotientBound(tlen, TaperMaxFraction * (ns - 1) as real, dt);
    assert q <= 0.5 * (ns - 1) as real;
  }

  /**
   * pad_3cseis as written: a dead seismogram comes back unchanged; a pad
   * longer than the trace or a taper longer than half of it throws;
   * otherwise the padded and tapered buffer replaces u and t0 moves back by
   * plen.  ns keeps its old value, so a live result with npad > 0 holds
   * more samples than its ns says: apart from ns it is the corrected result.
   */
  method Pad3CSeisAsWritten(d: Seis3C, plen: real, tlen: real) returns (r: Result<Seis3C>)
    requires WellFormed(d) && d.dt > 0.0 && plen >= 0.0
    ensures !d.live ==> r == Ok(d)
    ensures d.live ==> (r.Err? <==> Rejected(d, plen, tlen))
    ensures d.live && plen > EndTime(d.t0, d.ns, d.dt) - d.t0 ==> r == Throw(PadTooLong)
    ensures d.live && plen <= EndTime(d.t0, d.ns, d.dt) - d.t0 && r.Err? ==> r == Throw(TaperTooLong)
    ensures d.live && r.Ok? ==> r.value == d.(u := r.value.u, t0 := d.t0 - plen)
    ensures d.live && r.Ok? ==> r.value.u == PaddedSamples(d.u, CTrunc(plen / d.dt), CTrunc(tlen / d.dt))
    ensures d.live && r.Ok? ==> |r.value.u| == 3 * (d.ns + CTrunc(plen / d.dt))
    ensures d.live && r.Ok? && CTrunc(plen / d.dt) > 0 ==> !WellFormed(r.value)
    ensures d.live && r.Ok? ==> PadResult(d, plen, tlen) == Ok(r.value.(ns := d.ns + CTrunc(plen / d.dt)))
  {
    if !d.live {
      return Ok(d);
    }
    var tracelength := EndTime(d.t0, d.ns, d.dt) - d.t0;
    if plen > tracelength {
      return Throw(PadTooLong);
    }
    if tlen > TaperMaxFraction * tracelength {
      return Throw(TaperTooLong);
    }
    var npad := CTrunc(plen / d.dt);
    var ntaper := CTrunc(tlen / d.dt);
    TaperInsideData(d.ns, d.dt, tlen);
    var upad := PadSamples(d.u, d.ns, npad, ntaper);
    PaddedSamplesUnique(upad, d.u, d.ns, npad, ntaper);
    r := Ok(d.(u := upad, t0 := d.t0 - plen));
  }

  /** The buffer pad_3cseis builds: npad columns of zeros, then the data columns under the taper. */
  function PaddedSamples(u: seq<real>, npad: int, ntaper: int): (r: seq<real>)
    requires npad >= 0
    ensures |r| == 3 * npad + |u|
  {
    seq(3 * npad, _ => 0.0) + seq(|u|, k requires 0 <= k < |u| => TaperWeight(k / 3, ntaper) * u[k])
  }

  /**
   * A buffer of the padded length whose first npad columns are zero and
   * whose column j + npad is data column j under the taper is the padded
   * buffer.
   */
  lemma PaddedSamplesUnique(r: seq<real>, u: seq<real>, ns: nat, npad: nat, ntaper: int)
    requires |u| == 3 * ns && |r| == 3 * (ns + npad)
    requires forall k :: 0 <= k < 3 * npad ==> r[k] == 0.0
    requires forall j, c :: 0 <= j < ns && 0 <= c < 3 ==>
      ColumnValue(r, j + npad, c) == TaperWeight(j, ntaper) * ColumnValue(u, j, c)
    ensures r == PaddedSamples(u, npad, ntaper)
  {
    var p := PaddedSamples(u, npad, ntaper);
    forall k | 3 * npad <= k < |r|
      ensures r[k] == p[k]
    {
      var i := k - 3 * npad;
      var j, c := i / 3, i % 3;
      assert 3 * j + c == i && 0 <= j < ns;
      assert ColumnValue(r, j + npad, c) == r[k];
      assert ColumnValue(u, j, c) == u[i];
      assert p[k] == TaperWeight(j, ntaper) * u[i];
    }
  }

  /**
   * What pad_3cseis makes of d, with ns raised by npad as the new buffer
   * requires.
   */
  function PadResult(d: Seis3C, plen: real, tlen: real): Result<Seis3C>
    requires d.dt > 0.0 && plen >= 0.0
  {
    var tracelength := EndTime(d.t0, d.ns, d.dt) - d.t0;
    if !d.live then Ok(d)
    else if plen > tracelength then Throw(PadTooLong)
    else if tlen > TaperMaxFraction * tracelength then Throw(TaperTooLong)
    else
      var npad := CTrunc(plen / d.dt);
      Ok(d.(ns := d.ns + npad, u := PaddedSamples(d.u, npad, CTrunc(tlen / d.dt)), t0 := d.t0 - plen))
  }

  /** The padded buffer's first npad columns are zero and its column j + npad is input column j under the taper. */
  lemma PaddedSamplesColumns(u: seq<real>, ns: nat, npad: nat, ntaper: int)
    requires |u| == 3 * ns
    ensures |PaddedSamples(u, npad, ntaper)| == 3 * (ns + npad)
    ensures forall k :: 0 <= k < 3 * npad ==> PaddedSamples(u, npad, ntaper)[k] == 0.0
    ensures forall j, c :: 0 <= j < ns && 0 <= c < 3 ==>
      ColumnValue(PaddedSamples(u, npad, ntaper), j + npad, c) == TaperWeight(j, ntaper) * ColumnValue(u, j, c)
  {
    var p := PaddedSamples(u, npad, ntaper);
    forall j, c | 0 <= j < ns && 0 <= c < 3
      ensures ColumnValue(p, j + npad, c) == TaperWeight(j, ntaper) * ColumnValue(u, j, c)
    {
      assert (3 * j + c) / 3 == j;
      assert p[3 * (j + npad) + c] == TaperWeight((3 * j + c) / 3, ntaper) * u[3 * j + c];
    }
  }

  /**
   * What the padded result means: a dead seismogram is unchanged; a live
   * one is rejected exactly when the pad or the taper is too long, with the
   * matching message; otherwise the result is well formed, npad samples
   * longer, starts plen earlier, begins with npad zero samples and carries
   * input sample j, under the taper, at sample j + npad.
   */
  lemma PadResultMeaning(d: Seis3C, plen: real, tlen: real)
    requires WellFormed(d) && d.dt > 0.0 && plen >= 0.0
    ensures var r := PadResult(d, plen, tlen);
      && (!d.live ==> r == Ok(d))
      && (d.live ==> (r.Err? <==> Rejected(d, plen, tlen)))
      && (d.live && plen > EndTime(d.t0, d.ns, d.dt) - d.t0 ==> r == Throw(PadTooLong))
      && (d.live && plen <= EndTime(d.t0, d.ns, d.dt) - d.t0 && r.Err? ==> r == Throw(TaperTooLong))
      && (r.Ok? ==> WellFormed(r.value))
    ensures var r := PadResult(d, plen, tlen);
      d.live && r.Ok? ==> var npad := CTrunc(plen / d.dt);
        && r.value == d.(ns := d.ns + npad, u := r.value.u, t0 := d.t0 - plen)
        && (forall k :: 0 <= k < 3 * npad ==> r.value.u[k] == 0.0)
        && (forall j, c :: 0 <= j < d.ns && 0 <= c < 3 ==>
              ColumnValue(r.value.u, j + npad, c) == TaperWeight(j, CTrunc(tlen / d.dt)) * ColumnValue(d.u, j, c))
  {
    if d.live && !Rejected(d, plen, tlen) {
      var npad := CTrunc(plen / d.dt);
      PaddedSamplesColumns(d.u, d.ns, npad, CTrunc(tlen / d.dt));
    }
  }

  /**
   * pad_3cseis with ns raised by npad, as the new buffer requires: the
   * result is a well-formed seismogram npad samples longer whose first
   * npad samples are zero and whose sample j + npad is input sample j
   * under the taper.
   */
  method Pad3CSeis(d: Seis3C, plen: real, tlen: real) returns (r: Result<Seis3C>)
    requires WellFormed(d) && d.dt > 0.0 && plen >= 0.0
    ensures !d.live ==> r == Ok(d)
    ensures d.live ==> (r.Err? <==> Rejected(d, plen, tlen))
    ensures d.live && plen > EndTime(d.t0, d.ns, d.dt) - d.t0 ==> r == Throw(PadTooLong)
    ensures d.live && plen <= EndTime(d.t0, d.ns, d.dt) - d.t0 && r.Err? ==> r == Throw(TaperTooLong)
    ensures r.Ok? ==> WellFormed(r.value)
    ensures r == PadResult(d, plen, tlen)
    ensures d.live && r.Ok? ==> var npad := CTrunc(plen / d.dt);
      && r.value == d.(ns := d.ns + npad, u := r.value.u, t0 := d.t0 - plen)
      && (forall k :: 0 <= k < 3 * npad ==> r.value.u[k] == 0.0)
      && (forall j, c :: 0 <= j < d.ns && 0 <= c < 3 ==>
            ColumnValue(r.value.u, j + npad, c) == TaperWeight(j, CTrunc(tlen / d.dt)) * ColumnValue(d.u, j, c))
  {
    if !d.live {
      return Ok(d);
    }
    var tracelength := EndTime(d.t0, d.ns, d.dt) - d.t0;
    if plen > tracelength {
      return Throw(PadTooLong);
    }
    if tlen > TaperMaxFraction * tracelength {
      return Throw(TaperTooLong);
    }
    var npad := CTrunc(plen / d.dt);
    var ntaper := CTrunc(tlen / d.dt);
    TaperInsideData(d.ns, d.dt, tlen);
    var upad := PadSamples(d.u, d.ns, npad, ntaper);
    PaddedSamplesUnique(upad, d.u, d.ns, npad, ntaper);
    r := Ok(d.(ns := d.ns + npad, u := upad, t0 := d.t0 - plen));
    PadResultMeaning(d, plen, tlen);
  }

  /**
   * Input sample j, at time t0 + j*dt, sits in the padded seismogram at
   * (t0 - plen) + (j + npad)*dt: no later, and earlier by less than one
   * sample interval.
   */
  lemma PaddedSampleTime(t0: real, dt: real, plen: real, j: int)
    requires dt > 0.0 && plen >= 0.0
    ensures var npad := CTrunc(plen / dt);
      var moved := (t0 - plen) + (j + npad) as real * dt;
      t0 + j as real * dt - dt < moved <= t0 + j as real * dt
  {
    var q := plen / dt;
    var npad := CTrunc(q);
    assert q * dt == plen;
    assert q >= 0.0;
    assert 0 <= npad && npad as real <= q < npad as real + 1.0;
    var jt, nt := j as real * dt, npad as real * dt;
    assert (j + npad) as real * dt == jt + nt;
    assert (q - npad as real) * dt >= 0.0;
    var gap := npad as real + 1.0 - q;
    assert gap > 0.0;
    var slack := gap * dt;
    assert slack > 0.0;
    assert slack == nt + dt - q * dt;
    assert plen < nt + dt;
  }

  /** The two checks of pad_3cseis that make it throw. */
  predicate Rejected(d: Seis3C, plen: real, tlen: real)
  {
    var tracelength := EndTime(d.t0, d.ns, d.dt) - d.t0;
    plen > tracelength || tlen > TaperMaxFraction * tracelength
  }

  /** main: every member padded in turn; a throw on any member leaves nothing written. */
  method PadEnsemble(e: Ensemble3C, plen: real, tlen: real) returns (r: Result<Ensemble3C>)
    requires forall i :: 0 <= i < |e.members| ==> WellFormed(e.members[i]) && e.members[i].dt > 0.0
    requires plen >= 0.0
    ensures r.Ok? ==> r.value.md == e.md && |r.value.members| == |e.members|
    ensures r.Ok? ==> forall i :: 0 <= i < |e.members| ==> WellFormed(r.value.members[i])
    ensures r.Ok? ==> forall i :: 0 <= i < |e.members| && !e.members[i].live ==> r.value.members[i] == e.members[i]
    ensures r.Ok? ==> forall i :: 0 <= i < |e.members| && e.members[i].live ==>
      r.value.members[i].ns == e.members[i].ns + CTrunc(plen / e.members[i].dt)
    ensures r.Ok? <==> forall i :: 0 <= i < |e.members| && e.members[i].live ==> !Rejected(e.members[i], plen, tlen)
    ensures r.Ok? ==> forall i :: 0 <= i < |e.members| ==> Ok(r.value.members[i]) == PadResult(e.members[i], plen, tlen)
    ensures r.Err? ==> exists i :: 0 <= i < |e.members| && e.members[i].live && Rejected(e.members[i], plen, tlen)
                                  && r == PadResult(e.members[i], plen, tlen).PropagateFailure()
                                  && (forall k :: 0 <= k < i ==> PadResult(e.members[k], plen, tlen).Ok?)
  {
    var ms := e.members;
    var i := 0;
    while i < |ms|
      invariant 0 <= i <= |ms| && |ms| == |e.members|
      invariant forall k :: i <= k < |ms| ==> ms[k] == e.members[k]
      invariant forall k :: 0 <= k < i ==> WellFormed(ms[k])
      invariant forall k :: 0 <= k < i && !e.members[k].live ==> ms[k] == e.members[k]
      invariant forall k :: 0 <= k < i && e.members[k].live ==> ms[k].ns == e.members[k].ns + CTrunc(plen / e.members[k].dt)
      invariant forall k :: 0 <= k < i ==> Ok(ms[k]) == PadResult(e.members[k], plen, tlen)
    {
      var p := Pad3CSeis(ms[i], plen, tlen);
      if p.Err? {
        return p.PropagateFailure();
      }
      ms := ms[i := p.value];
      i := i + 1;
    }
    r := Ok(Ensemble3C(e.md, ms));
  }
}

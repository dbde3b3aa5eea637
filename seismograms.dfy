/**
 * The SEISPP data objects the filters pass around, as values.  A
 * ThreeComponentSeismogram stores its samples in a 3 x ns dmatrix u, kept in
 * column-major order: component c of sample j is u[3*j + c].
 */
module Seismograms {
  import opened MetadataMaps

  datatype TimeWindow = TimeWindow(start: real, end: real)

  datatype TimeReference = Absolute | Relative

  datatype Seis3C = Seis3C(
    live: bool,
    ns: int,
    dt: real,
    t0: real,
    tref: TimeReference,
    u: seq<real>,
    md: Attributes)

  /** The storage invariant of a 3C seismogram: 3*ns samples in u. */
  predicate WellFormed(d: Seis3C)
  {
    d.ns >= 0 && |d.u| == 3 * d.ns
  }

  /** endtime() of a BasicTimeSeries: the time of the last sample. */
  function EndTime(t0: real, ns: int, dt: real): real
  {
    t0 + (ns - 1) as real * dt
  }

  /** Component c of sample j in a column-major buffer of three rows. */
  function ColumnValue(u: seq<real>, j: int, c: int): real
    requires 0 <= j && 0 <= c < 3 && 3 * j + c < |u|
  {
    u[3 * j + c]
  }

  /** A scalar TimeSeries. */
  datatype Series = Series(live: bool, ns: int, dt: real, t0: real, s: seq<real>, md: Attributes)

  datatype Ensemble3C = Ensemble3C(md: Attributes, members: seq<Seis3C>)

  /** dscal: multiply the first n entries of x by s and keep the rest. */
  function Scaled(s: real, x: seq<real>, n: int): (r: seq<real>)
    requires 0 <= n <= |x|
    ensures |r| == |x|
    ensures forall k :: 0 <= k < n ==> r[k] == s * x[k]
    ensures forall k :: n <= k < |x| ==> r[k] == x[k]
  {
    seq(|x|, k requires 0 <= k < |x| => if k < n then s * x[k] else x[k])
  }

  /** dscal on the sample buffer, as the loop over the storage runs. */
  method ScaleSamples(s: real, x: seq<real>, n: int) returns (r: seq<real>)
    requires 0 <= n <= |x|
    ensures r == Scaled(s, x, n)
  {
    r := x;
    var k := 0;
    while k < n
      invariant 0 <= k <= n
      invariant |r| == |x|
      invariant forall m :: 0 <= m < k ==> r[m] == s * x[m]
      invariant forall m :: k <= m < |x| ==> r[m] == x[m]
    {
      r := r[k := s * r[k]];
      k := k + 1;
    }
  }
}

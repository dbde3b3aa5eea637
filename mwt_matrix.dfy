/**
 * MWTMatrix: the multiwavelet transform of one scalar series, an nbands x
 * nwavelets grid of MWTwaveforms kept in a flat vector in row-major order,
 * element (band, wavelet) at index band*nwavelets + wavelet.
 */
module MWTMatrix {
  import opened Failures
  import opened Numerics
  import opened MetadataMaps
  import opened MWTWaveform
  import opened DecimalText

  datatype Matrix = Matrix(nbands: int, nwavelets: int, d: seq<Waveform>, md: Attributes)

  /**
   * The layout invariant: nbands*nwavelets well-formed waveforms, and a
   * matrix with bands has wavelets in each band.
   */
  predicate Valid(m: Matrix)
  {
    && m.nbands >= 0 && m.nwavelets >= 0
    && |m.d| == m.nbands * m.nwavelets
    && (m.nbands > 0 ==> m.nwavelets > 0)
    && forall k :: 0 <= k < |m.d| ==> WaveformWellFormed(m.d[k])
  }

  /** The default constructor: no bands, no wavelets. */
  function Empty(): (m: Matrix)
    ensures Valid(m) && m.d == []
  {
    Matrix(0, 0, [], map[])
  }

  /** The explanation range_test gives for an index outside the grid. */
  function RangeMessage(m: Matrix, ib: int, iw: int): string
  {
    "MWTMatrix index requested is out of range\nRequested band=" + IntText(ib) + " and wavelet=" + IntText(iw)
    + "\nNumber of bands=" + IntText(m.nbands) + " and number of wavelets=" + IntText(m.nwavelets)
  }

  /** range_test: "ok" for an index inside the grid, an explanation otherwise. */
  function RangeTest(m: Matrix, ib: int, iw: int): (r: string)
    ensures r == "ok" <==> 0 <= ib < m.nbands && 0 <= iw < m.nwavelets
  {
    if ib < 0 || ib >= m.nbands || iw < 0 || iw >= m.nwavelets then RangeMessage(m, ib, iw) else "ok"
  }

  lemma {:induction false} FlatIndexInRange(nb: int, nw: int, i: int, j: int)
    requires 0 <= i < nb && 0 <= j < nw
    ensures 0 <= i * nw + j < nb * nw
  {
    assert i * nw <= (nb - 1) * nw by {
      assert (nb - 1) * nw - i * nw == (nb - 1 - i) * nw;
      assert (nb - 1 - i) * nw >= 0;
    }
    assert (nb - 1) * nw + nw == nb * nw;
  }

  /** The flat index of grid position (ib, iw). */
  function FlatIndex(m: Matrix, ib: int, iw: int): (k: nat)
    requires Valid(m)
    requires 0 <= ib < m.nbands && 0 <= iw < m.nwavelets
    ensures k == ib * m.nwavelets + iw && k < |m.d|
  {
    FlatIndexInRange(m.nbands, m.nwavelets, ib, iw);
    ib * m.nwavelets + iw
  }

  /** operator()(band, wavelet): the waveform at that grid position. */
  function Get(m: Matrix, ib: int, iw: int): (r: Result<Waveform>)
    requires Valid(m)
    ensures r.Ok? <==> RangeTest(m, ib, iw) == "ok"
    ensures r.Err? ==> r == Throw("MWTMatrix::operator():  " + RangeTest(m, ib, iw))
    ensures r.Ok? ==> r.value == m.d[FlatIndex(m, ib, iw)]
  {
    if RangeTest(m, ib, iw) != "ok" then Throw("MWTMatrix::operator():  " + RangeTest(m, ib, iw))
    else Ok(m.d[FlatIndex(m, ib, iw)])
  }

  /** The conversions of the first nw traces of one row of the C array. */
  function Row(traces: seq<MWTrace>, nw: nat): (r: seq<Waveform>)
    requires nw <= |traces|
    requires forall j :: 0 <= j < nw ==> TraceWellFormed(traces[j])
    ensures |r| == nw
    ensures forall j :: 0 <= j < nw ==> r[j] == Converted(traces[j])
  {
    seq(nw, j requires 0 <= j < nw => Converted(traces[j]))
  }

  /** What the C array draw[nb][nw] may be: nb rows of nw well-formed traces. */
  predicate DrawWellFormed(draw: seq<seq<MWTrace>>, nb: int, nw: int)
  {
    && 0 <= nb <= |draw| && 0 <= nw
    && forall i :: 0 <= i < nb ==>
         nw <= |draw[i]| && forall j :: 0 <= j < nw ==> TraceWellFormed(draw[i][j])
  }

  /** The flat vector holding the first k rows, converted, row after row. */
  function Grid(draw: seq<seq<MWTrace>>, k: nat, nw: nat): seq<Waveform>
    requires DrawWellFormed(draw, k, nw)
  {
    if k == 0 then [] else Grid(draw, k - 1, nw) + Row(draw[k - 1], nw)
  }

  /** Grid position (i, j) of the C array lands at flat index i*nw + j. */
  lemma {:induction false} GridAt(draw: seq<seq<MWTrace>>, k: nat, nw: nat, i: int, j: int)
    requires DrawWellFormed(draw, k, nw)
    requires 0 <= i < k && 0 <= j < nw
    ensures |Grid(draw, k, nw)| == k * nw
    ensures 0 <= i * nw + j < k * nw
    ensures Grid(draw, k, nw)[i * nw + j] == Converted(draw[i][j])
  {
    GridLength(draw, k, nw);
    FlatIndexInRange(k, nw, i, j);
    if i < k - 1 {
      GridAt(draw, k - 1, nw, i, j);
    } else {
      assert i * nw + j == (k - 1) * nw + j;
      GridLength(draw, k - 1, nw);
    }
  }

  lemma {:induction false} GridLength(draw: seq<seq<MWTrace>>, k: nat, nw: nat)
    requires DrawWellFormed(draw, k, nw)
    ensures |Grid(draw, k, nw)| == k * nw
  {
    if k > 0 {
      GridLength(draw, k - 1, nw);
      assert (k - 1) * nw + nw == k * nw;
    }
  }

  /** The matrix the main constructor builds from the transform's output. */
  function Built(draw: seq<seq<MWTrace>>, nb: nat, nw: nat, md: Attributes): Matrix
    requires DrawWellFormed(draw, nb, nw)
  {
    Matrix(nb, nw, Grid(draw, nb, nw), md)
  }

  /** The main constructor: converts draw[i][j] and appends it, i-major, j-minor. */
  method Build(draw: seq<seq<MWTrace>>, nb: nat, nw: nat, md: Attributes) returns (m: Matrix)
    requires DrawWellFormed(draw, nb, nw)
    ensures m == Built(draw, nb, nw, md)
  {
    var d: seq<Waveform> := [];
    var i := 0;
    while i < nb
      invariant 0 <= i <= nb
      invariant d == Grid(draw, i, nw)
    {
      var j := 0;
      var row: seq<Waveform> := [];
      while j < nw
        invariant 0 <= j <= nw
        invariant row == Row(draw[i], nw)[..j]
      {
        var dij := FromTrace(draw[i][j]);
        row := row + [dij];
        j := j + 1;
      }
      d := d + row;
      i := i + 1;
    }
    m := Matrix(nb, nw, d, md);
  }

  /** A constructed matrix is valid whenever its bands have wavelets. */
  lemma BuiltValid(draw: seq<seq<MWTrace>>, nb: nat, nw: nat, md: Attributes)
    requires DrawWellFormed(draw, nb, nw)
    requires nb > 0 ==> nw > 0
    ensures Valid(Built(draw, nb, nw, md))
  {
    var g := Grid(draw, nb, nw);
    GridLength(draw, nb, nw);
    forall k | 0 <= k < |g|
      ensures WaveformWellFormed(g[k])
    {
      GridElement(draw, nb, nw, k);
    }
  }

  lemma GridElement(draw: seq<seq<MWTrace>>, k: nat, nw: nat, p: int)
    requires DrawWellFormed(draw, k, nw)
    requires 0 <= p < |Grid(draw, k, nw)|
    ensures WaveformWellFormed(Grid(draw, k, nw)[p])
  {
    if k > 0 {
      var prev := Grid(draw, k - 1, nw);
      if p >= |prev| {
        assert Grid(draw, k, nw)[p] == Row(draw[k - 1], nw)[p - |prev|];
      } else {
        GridElement(draw, k - 1, nw, p);
      }
    }
  }

  /** Reading element (band, wavelet) of a constructed matrix gives the conversion of draw[band][wavelet]. */
  lemma {:induction false} BuiltGet(draw: seq<seq<MWTrace>>, nb: nat, nw: nat, md: Attributes, ib: int, iw: int)
    requires DrawWellFormed(draw, nb, nw)
    requires nb > 0 ==> nw > 0
    requires 0 <= ib < nb && 0 <= iw < nw
    ensures Valid(Built(draw, nb, nw, md))
    ensures Get(Built(draw, nb, nw, md), ib, iw) == Ok(Converted(draw[ib][iw]))
  {
    BuiltValid(draw, nb, nw, md);
    GridAt(draw, nb, nw, ib, iw);
  }

  /** The default-constructed matrix rejects every index. */
  lemma EmptyRejectsAll(ib: int, iw: int)
    ensures Get(Empty(), ib, iw).Err?
  {
  }

  /** real(band, wavelet): the real parts of the waveform's samples. */
  method RealPart(m: Matrix, band: int, nw: int) returns (r: Result<seq<real>>)
    requires Valid(m)
    ensures r.Ok? <==> RangeTest(m, band, nw) == "ok"
    ensures r.Err? ==> r == Throw("MWTMatrix::real:  " + RangeTest(m, band, nw))
    ensures r.Ok? ==> var w := Get(m, band, nw).value;
      |r.value| == w.ns && forall i :: 0 <= i < w.ns ==> r.value[i] == w.s[i].re
  {
    var test := RangeTest(m, band, nw);
    if test != "ok" {
      return Throw("MWTMatrix::real:  " + test);
    }
    var g := Get(m, band, nw);
    var work := g.value;
    var result: seq<real> := [];
    var i := 0;
    while i < work.ns
      invariant 0 <= i <= work.ns
      invariant |result| == i
      invariant forall k :: 0 <= k < i ==> result[k] == work.s[k].re
    {
      result := result + [work.s[i].re];
      i := i + 1;
    }
    r := Ok(result);
  }

  /** imag(band, wavelet): the imaginary parts of the waveform's samples. */
  method ImagPart(m: Matrix, band: int, nw: int) returns (r: Result<seq<real>>)
    requires Valid(m)
    ensures r.Ok? <==> RangeTest(m, band, nw) == "ok"
    ensures r.Err? ==> r == Throw("MWTMatrix::imag:  " + RangeTest(m, band, nw))
    ensures r.Ok? ==> var w := Get(m, band, nw).value;
      |r.value| == w.ns && forall i :: 0 <= i < w.ns ==> r.value[i] == w.s[i].im
  {
    var test := RangeTest(m, band, nw);
    if test != "ok" {
      return Throw("MWTMatrix::imag:  " + test);
    }
    var g := Get(m, band, nw);
    var work := g.value;
    var result: seq<real> := [];
    var i := 0;
    while i < work.ns
      invariant 0 <= i <= work.ns
      invariant |result| == i
      invariant forall k :: 0 <= k < i ==> result[k] == work.s[k].im
    {
      result := result + [work.s[i].im];
      i := i + 1;
    }
    r := Ok(result);
  }

  /** The message of a per-band getter asked for a band outside [0, nbands). */
  function BandMessage(getter: string, m: Matrix, nb: int): string
  {
    getter + "Illegal request for band=" + IntText(nb) + "Data range: number bands=" + IntText(m.nbands) + "\n"
  }

  /**
   * The first waveform of band nb, whose attributes the per-band getters
   * report; a band outside [0, nbands) throws.
   */
  function BandHead(m: Matrix, nb: int, getter: string): (r: Result<Waveform>)
    requires Valid(m)
    ensures r.Ok? <==> 0 <= nb < m.nbands
    ensures r.Err? ==> r == Throw(BandMessage(getter, m, nb))
    ensures r.Ok? ==> r == Get(m, nb, 0)
  {
    if 0 <= nb < m.nbands then Ok(m.d[FlatIndex(m, nb, 0)]) else Throw(BandMessage(getter, m, nb))
  }

  /** get_f0(band). */
  function F0(m: Matrix, nb: int): (r: Result<real>)
    requires Valid(m)
    ensures r.Ok? <==> 0 <= nb < m.nbands
    ensures r.Err? ==> r == Throw(BandMessage("MWTMatrix::f0:  ", m, nb))
    ensures r.Ok? ==> r.value == Get(m, nb, 0).value.f0
  {
    var w :- BandHead(m, nb, "MWTMatrix::f0:  ");
    Ok(w.f0)
  }

  /** get_fw(band). */
  function Fw(m: Matrix, nb: int): (r: Result<real>)
    requires Valid(m)
    ensures r.Ok? <==> 0 <= nb < m.nbands
    ensures r.Err? ==> r == Throw(BandMessage("MWTMatrix::fw():  ", m, nb))
    ensures r.Ok? ==> r.value == Get(m, nb, 0).value.fw
  {
    var w :- BandHead(m, nb, "MWTMatrix::fw():  ");
    Ok(w.fw)
  }

  /** get_decfac(band). */
  function DecFac(m: Matrix, nb: int): (r: Result<int>)
    requires Valid(m)
    ensures r.Ok? <==> 0 <= nb < m.nbands
    ensures r.Err? ==> r == Throw(BandMessage("MWTMatrix::decfac():  ", m, nb))
    ensures r.Ok? ==> r.value == Get(m, nb, 0).value.decimationFactor
  {
    var w :- BandHead(m, nb, "MWTMatrix::decfac():  ");
    Ok(w.decimationFactor)
  }

  /** sample_interval(band): dt0 times the band's decimation factor. */
  function SampleInterval(m: Matrix, nb: int): (r: Result<real>)
    requires Valid(m)
    ensures r.Ok? <==> 0 <= nb < m.nbands
    ensures r.Err? ==> r == Throw(BandMessage("MWTMatrix::sample_interval(int band):  ", m, nb))
    ensures r.Ok? ==> var w := Get(m, nb, 0).value; r.value == w.dt0 * w.decimationFactor as real
  {
    var w :- BandHead(m, nb, "MWTMatrix::sample_interval(int band):  ");
    Ok(w.dt0 * w.decimationFactor as real)
  }

  /**
   * get_wavelet_length(band): reads the waveform at flat index band, not
   * the band's first waveform (index band*nwavelets).
   */
  function WaveletLength(m: Matrix, nb: int): (r: Result<int>)
    requires Valid(m)
    ensures r.Ok? <==> 0 <= nb < m.nbands
    ensures r.Err? ==> r == Throw(BandMessage("MWTMatrix::get_wavelet_length(int band):  ", m, nb))
    ensures r.Ok? ==> nb < |m.d| && r.value == m.d[nb].waveletLength
  {
    if 0 <= nb < m.nbands then
      FlatIndexInRange(m.nbands, m.nwavelets, nb, 0);
      assert nb <= nb * m.nwavelets;
      Ok(m.d[nb].waveletLength)
    else Throw(BandMessage("MWTMatrix::get_wavelet_length(int band):  ", m, nb))
  }

  /**
   * On a constructed matrix the per-band getters report the attributes of
   * draw[band][0], and the wavelet-length getter, for a band below
   * nwavelets, the length of draw[0][band].
   */
  lemma {:induction false} BuiltBandGetters(draw: seq<seq<MWTrace>>, nb: nat, nw: nat, md: Attributes, band: int)
    requires DrawWellFormed(draw, nb, nw)
    requires nb > 0 ==> nw > 0
    requires 0 <= band < nb
    ensures Valid(Built(draw, nb, nw, md))
    ensures F0(Built(draw, nb, nw, md), band) == Ok(draw[band][0].f0)
    ensures Fw(Built(draw, nb, nw, md), band) == Ok(draw[band][0].fw)
    ensures DecFac(Built(draw, nb, nw, md), band) == Ok(draw[band][0].decimationFactor)
    ensures band < nw ==> WaveletLength(Built(draw, nb, nw, md), band) == Ok(draw[0][band].basisLength)
  {
    BuiltGet(draw, nb, nw, md, band, 0);
    if band < nw {
      BuiltGet(draw, nb, nw, md, 0, band);
    }
  }
}

/**
 * MWTwaveform: one multiwavelet-transformed trace, a ComplexTimeSeries
 * carrying the transform's private attributes (dt0, decimation factor,
 * centre frequency f0, bandwidth fw and the wavelet length in samples).
 */
module MWTWaveform {
  import opened Failures
  import opened Numerics
  import opened MetadataMaps
  import opened Seismograms

  /**
   * The MWtrace record the C transform produces: nz complex samples held
   * as single-precision pairs, plus the band's sampling attributes.  The
   * conversion float -> double is exact, so the samples are reals here.
   */
  datatype MWTrace = MWTrace(
    nz: int,
    dt: real,
    dt0: real,
    decimationFactor: int,
    f0: real,
    fw: real,
    starttime: real,
    basisLength: int,
    z: seq<Complex>)

  datatype Waveform = Waveform(
    live: bool,
    ns: int,
    dt: real,
    t0: real,
    tref: TimeReference,
    s: seq<Complex>,
    dt0: real,
    decimationFactor: int,
    f0: real,
    fw: real,
    waveletLength: int,
    md: Attributes)

  /** The C record holds the nz samples it announces. */
  predicate TraceWellFormed(mw: MWTrace)
  {
    0 <= mw.nz <= |mw.z|
  }

  /** The sample vector holds exactly ns samples. */
  predicate WaveformWellFormed(w: Waveform)
  {
    w.ns >= 0 && |w.s| == w.ns
  }

  /** The five attributes the conversion posts to the waveform's metadata. */
  function PostedAttributes(mw: MWTrace): Attributes
  {
    map[
      "dt0" := RealValue(mw.dt0),
      "decimation_factor" := IntValue(mw.decimationFactor),
      "f0" := RealValue(mw.f0),
      "fw" := RealValue(mw.fw),
      "wavelet_length_in_samples" := IntValue(mw.basisLength)]
  }

  /**
   * The waveform the conversion constructor builds from mw.  The sample
   * interval is recomputed as dt0 times the decimation factor; the dt the
   * record carries is ignored.
   */
  function Converted(mw: MWTrace): (w: Waveform)
    requires TraceWellFormed(mw)
    ensures WaveformWellFormed(w) && w.ns == mw.nz
    ensures forall i :: 0 <= i < mw.nz ==> w.s[i] == mw.z[i]
  {
    Waveform(true, mw.nz, mw.dt0 * mw.decimationFactor as real, mw.starttime, Absolute,
             mw.z[..mw.nz], mw.dt0, mw.decimationFactor, mw.f0, mw.fw, mw.basisLength,
             PostedAttributes(mw))
  }

  /** The conversion constructor: a zero-filled series of nz samples, overwritten sample by sample. */
  method FromTrace(mw: MWTrace) returns (w: Waveform)
    requires TraceWellFormed(mw)
    ensures w == Converted(mw)
    ensures w.live && w.tref == Absolute && w.t0 == mw.starttime
    ensures w.dt == mw.dt0 * mw.decimationFactor as real
  {
    var s := seq(mw.nz, _ => Complex(0.0, 0.0));
    var i := 0;
    while i < mw.nz
      invariant 0 <= i <= mw.nz
      invariant |s| == mw.nz
      invariant forall k :: 0 <= k < i ==> s[k] == mw.z[k]
    {
      s := s[i := Complex(mw.z[i].re, mw.z[i].im)];
      i := i + 1;
    }
    assert s == mw.z[..mw.nz];
    w := Waveform(true, mw.nz, mw.dt0 * mw.decimationFactor as real, mw.starttime, Absolute,
                  s, mw.dt0, mw.decimationFactor, mw.f0, mw.fw, mw.basisLength,
                  PostedAttributes(mw));
  }

  /** The posted attributes can be read back with the metadata getters. */
  lemma ConvertedAttributesReadable(mw: MWTrace)
    requires TraceWellFormed(mw)
    ensures GetReal(Converted(mw).md, "dt0") == Ok(mw.dt0)
    ensures GetInt(Converted(mw).md, "decimation_factor") == Ok(mw.decimationFactor)
    ensures GetReal(Converted(mw).md, "f0") == Ok(mw.f0)
    ensures GetReal(Converted(mw).md, "fw") == Ok(mw.fw)
    ensures GetInt(Converted(mw).md, "wavelet_length_in_samples") == Ok(mw.basisLength)
  {
  }
}

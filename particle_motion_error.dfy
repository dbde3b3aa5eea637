/**
 * ParticleMotionError: the error estimates attached to one particle-motion
 * ellipse (angle, amplitude and rectilinearity errors and their degrees of
 * freedom), and the one-line text the stream operator writes for them.
 */
module ParticleMotionError {
  import opened TextTokens

  datatype PMError = PMError(
    dthetaMajor: real,
    dphiMajor: real,
    dthetaMinor: real,
    dphiMinor: real,
    dmajornrm: real,
    dminornrm: real,
    deltaRect: real,
    ndgfMajor: int,
    ndgfMinor: int,
    ndgfRect: int,
    ndgfMajorAmp: int,
    ndgfMinorAmp: int)

  /** The default constructor and zero(): every attribute 0. */
  function Zero(): PMError
  {
    PMError(0.0, 0.0, 0.0, 0.0, 0.0, 0.0, 0.0, 0, 0, 0, 0, 0)
  }

  /** The attributes as values, in the order the class declares them. */
  function AttributeValues(e: PMError): (ts: seq<Token>)
    ensures |ts| == 12
  {
    [Real(e.dthetaMajor), Real(e.dphiMajor), Real(e.dthetaMinor), Real(e.dphiMinor),
     Real(e.dmajornrm), Real(e.dminornrm), Real(e.deltaRect),
     Int(e.ndgfMajor), Int(e.ndgfMinor), Int(e.ndgfRect), Int(e.ndgfMajorAmp), Int(e.ndgfMinorAmp)]
  }

  /** Values separated by single blanks, with no blank or newline after the last. */
  function Separated(ts: seq<Token>): seq<Token>
  {
    if |ts| <= 1 then ts else [ts[0], Text(" ")] + Separated(ts[1..])
  }

  /** The values in a token stream, separators dropped. */
  function Values(ts: seq<Token>): seq<Token>
  {
    if ts == [] then [] else (if ts[0].Text? then [] else [ts[0]]) + Values(ts[1..])
  }

  /** A list of values: no separators and no line ends. */
  predicate PlainValues(ts: seq<Token>)
  {
    forall k :: 0 <= k < |ts| ==> !ts[k].Text? && !ts[k].Endl?
  }

  /** Separating values with blanks loses none of them and adds no line end. */
  lemma {:induction false} ValuesOfSeparated(ts: seq<Token>)
    requires PlainValues(ts)
    ensures Values(Separated(ts)) == ts
    ensures Endl !in Separated(ts)
    decreases |ts|
  {
    if |ts| > 1 {
      ValuesOfSeparated(ts[1..]);
      var rest := Separated(ts[1..]);
      assert Separated(ts) == [ts[0]] + ([Text(" ")] + rest);
      assert Values([ts[0]] + ([Text(" ")] + rest)) == [ts[0]] + Values([Text(" ")] + rest);
      assert ([Text(" ")] + rest)[1..] == rest;
    } else if |ts| == 1 {
      assert Values(ts) == [ts[0]] + Values(ts[1..]);
    }
  }

  /** The values operator<< writes, in the order it writes them. */
  function PrintedValues(e: PMError): seq<Token>
  {
    [Real(e.dthetaMajor), Real(e.dphiMajor), Real(e.dthetaMinor), Real(e.dphiMinor),
     Real(e.dmajornrm), Real(e.dminornrm),
     Int(e.ndgfMajor), Int(e.ndgfMinor), Int(e.ndgfRect), Int(e.ndgfMajorAmp), Int(e.ndgfMinorAmp)]
  }

  /** operator<< as written: those values separated by blanks, no newline. */
  function Printed(e: PMError): seq<Token>
  {
    Separated(PrintedValues(e))
  }

  /**
   * The printed line carries the declared attributes with delta_rect
   * dropped, so the seventh value read back is ndgf_major where the
   * documented attribute order puts delta_rect; and no newline is written.
   */
  lemma PrintedOmitsDeltaRect(e: PMError)
    ensures Values(Printed(e)) == AttributeValues(e)[..6] + AttributeValues(e)[7..]
    ensures |Values(Printed(e))| == 11
    ensures Values(Printed(e))[6] == Int(e.ndgfMajor) != AttributeValues(e)[6]
    ensures Endl !in Printed(e)
  {
    ValuesOfSeparated(PrintedValues(e));
    assert PrintedValues(e) == AttributeValues(e)[..6] + AttributeValues(e)[7..];
  }

  /** The line in the documented order: all twelve attributes, blank-separated, no newline. */
  function PrintedInOrder(e: PMError): seq<Token>
  {
    Separated(AttributeValues(e))
  }

  /** Reading the documented line back yields every attribute in declaration order. */
  lemma PrintedInOrderReadsBack(e: PMError)
    ensures Values(PrintedInOrder(e)) == AttributeValues(e)
    ensures Endl !in PrintedInOrder(e)
  {
    ValuesOfSeparated(AttributeValues(e));
  }
}

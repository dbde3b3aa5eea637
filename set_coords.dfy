/**
 * set_coords: an EnsembleCoordinates object reads the "coordinates" table
 * of a parameter file, one line per ensemble member giving rx ry relev sx
 * sy selev, into parallel vectors and computes each source-receiver offset
 * from the horizontal coordinates.  set_coords then posts row i to member
 * i of an ensemble with exactly as many members as the table has rows.
 */
module SetCoords {
  import opened Failures
  import opened MetadataMaps
  import opened Seismograms
  import opened Numerics
  import opened TextTokens
  import opened DecimalText

  /** One line of the coordinates table. */
  datatype Coordinates = Coordinates(rx: real, ry: real, relev: real, sx: real, sy: real, selev: real)

  /**
   * Value k of a line read with `ss >> d` six times into one double d.  Past
   * the last word the extraction fails and leaves d as it was: the value of
   * the last word, or the uninitialized d of a blank line, which the model
   * takes as the parameter indeterminate.
   */
  function Extracted(ws: seq<string>, k: nat, cv: string -> real, indeterminate: real): real
  {
    if k < |ws| then cv(ws[k]) else if |ws| > 0 then cv(ws[|ws| - 1]) else indeterminate
  }

  /** The six values of one table line, in the order rx ry relev sx sy selev. */
  function LineCoordinates(line: string, cv: string -> real, indeterminate: real): Coordinates
  {
    var ws := Words(line);
    Coordinates(Extracted(ws, 0, cv, indeterminate), Extracted(ws, 1, cv, indeterminate),
                Extracted(ws, 2, cv, indeterminate), Extracted(ws, 3, cv, indeterminate),
                Extracted(ws, 4, cv, indeterminate), Extracted(ws, 5, cv, indeterminate))
  }

  function Sq(x: real): real { x * x }

  /** The horizontal source-receiver distance; the elevations take no part. */
  function Offset(num: Numerics, c: Coordinates): real
  {
    num.sqrt(Sq(c.rx - c.sx) + Sq(c.ry - c.sy))
  }

  /** The six numbers of a row written blank-separated with a formatter. */
  function WrittenLine(fmt: real -> string, c: Coordinates): string
  {
    Spaced([fmt(c.rx), fmt(c.ry), fmt(c.relev), fmt(c.sx), fmt(c.sy), fmt(c.selev)])
  }

  /** A line written from a row reads back as that row when the conversion inverts the formatter. */
  lemma LineCoordinatesOfWrittenLine(fmt: real -> string, cv: string -> real, indeterminate: real, c: Coordinates)
    requires forall x :: IsWord(fmt(x)) && cv(fmt(x)) == x
    ensures LineCoordinates(WrittenLine(fmt, c), cv, indeterminate) == c
  {
    var ws := [fmt(c.rx), fmt(c.ry), fmt(c.relev), fmt(c.sx), fmt(c.sy), fmt(c.selev)];
    WordsOfLine(ws);
  }

  const SizeMismatchHead: string := "EnsembleCoordinates::set_coords:   size mismatch\n"

  function SizeMismatch(rows: nat, members: nat): string
  {
    SizeMismatchHead + "Coordinate table size=" + NatText(rows) + " but ensemble size = " + NatText(members) + "\n"
  }

  /** The seven puts on one member: rx, ry, relev, sx, sy, selev and offset. */
  function Posted(md: Attributes, c: Coordinates, offset: real): Attributes
  {
    md["rx" := RealValue(c.rx)]["ry" := RealValue(c.ry)]["relev" := RealValue(c.relev)]
      ["sx" := RealValue(c.sx)]["sy" := RealValue(c.sy)]["selev" := RealValue(c.selev)]
      ["offset" := RealValue(offset)]
  }

  /** The names set_coords writes. */
  const CoordinateKeys: set<string> := {"rx", "ry", "relev", "sx", "sy", "selev", "offset"}

  /** After the puts a member reads back the row and its offset, and every other attribute is kept. */
  lemma PostedReadsBack(md: Attributes, c: Coordinates, offset: real)
    ensures GetReal(Posted(md, c, offset), "rx") == Ok(c.rx)
    ensures GetReal(Posted(md, c, offset), "ry") == Ok(c.ry)
    ensures GetReal(Posted(md, c, offset), "relev") == Ok(c.relev)
    ensures GetReal(Posted(md, c, offset), "sx") == Ok(c.sx)
    ensures GetReal(Posted(md, c, offset), "sy") == Ok(c.sy)
    ensures GetReal(Posted(md, c, offset), "selev") == Ok(c.selev)
    ensures GetReal(Posted(md, c, offset), "offset") == Ok(offset)
    ensures Posted(md, c, offset).Keys == md.Keys + CoordinateKeys
    ensures forall key :: key in md && key !in CoordinateKeys ==> Posted(md, c, offset)[key] == md[key]
  {
  }

  class EnsembleCoordinates {
    var rx: seq<real>
    var ry: seq<real>
    var relev: seq<real>
    var sx: seq<real>
    var sy: seq<real>
    var selev: seq<real>
    var offset: seq<real>

    /** The parallel vectors have one entry per table row. */
    predicate Valid()
      reads this
    {
      |ry| == |rx| && |relev| == |rx| && |sx| == |rx| && |sy| == |rx| && |selev| == |rx| && |offset| == |rx|
    }

    /** Row i of the table. */
    function Row(i: nat): Coordinates
      reads this
      requires Valid() && i < |rx|
    {
      Coordinates(rx[i], ry[i], relev[i], sx[i], sy[i], selev[i])
    }

    /**
     * EnsembleCoordinates(control): one row per line of the coordinates
     * table, with the offset of each row.
     */
    constructor (lines: seq<string>, cv: string -> real, indeterminate: real, num: Numerics)
      ensures Valid() && |rx| == |lines|
      ensures forall i :: 0 <= i < |lines| ==> Row(i) == LineCoordinates(lines[i], cv, indeterminate)
      ensures forall i :: 0 <= i < |lines| ==> offset[i] == Offset(num, Row(i))
    {
      var xr, yr, er, xs, ys, es, off: seq<real> := [], [], [], [], [], [], [];
      var i := 0;
      while i < |lines|
        invariant 0 <= i <= |lines|
        invariant |xr| == i && |yr| == i && |er| == i && |xs| == i && |ys| == i && |es| == i && |off| == i
        invariant forall k :: 0 <= k < i ==>
          Coordinates(xr[k], yr[k], er[k], xs[k], ys[k], es[k]) == LineCoordinates(lines[k], cv, indeterminate)
        invariant forall k :: 0 <= k < i ==> off[k] == Offset(num, Coordinates(xr[k], yr[k], er[k], xs[k], ys[k], es[k]))
      {
        var ws := Words(lines[i]);
        var d := Extracted(ws, 0, cv, indeterminate);
        xr := xr + [d];
        d := Extracted(ws, 1, cv, indeterminate);
        yr := yr + [d];
        d := Extracted(ws, 2, cv, indeterminate);
        er := er + [d];
        d := Extracted(ws, 3, cv, indeterminate);
        xs := xs + [d];
        d := Extracted(ws, 4, cv, indeterminate);
        ys := ys + [d];
        d := Extracted(ws, 5, cv, indeterminate);
        es := es + [d];
        d := Sq(xr[i] - xs[i]) + Sq(yr[i] - ys[i]);
        off := off + [num.sqrt(d)];
        i := i + 1;
      }
      rx, ry, relev, sx, sy, selev, offset := xr, yr, er, xs, ys, es, off;
    }

    /**
     * set_coords: a table whose length differs from the ensemble size throws
     * before any put; otherwise member i receives the seven values of row i.
     */
    method SetCoords(d: Ensemble3C) returns (r: Result<Ensemble3C>)
      requires Valid()
      ensures r.Err? <==> |offset| != |d.members|
      ensures r.Err? ==> r == Throw(SizeMismatch(|offset|, |d.members|))
      ensures r.Ok? ==> r.value.md == d.md && |r.value.members| == |d.members|
      ensures r.Ok? ==> forall i :: 0 <= i < |d.members| ==>
        r.value.members[i] == d.members[i].(md := Posted(d.members[i].md, Row(i), offset[i]))
    {
      if |offset| != |d.members| {
        return Throw(SizeMismatch(|offset|, |d.members|));
      }
      var ms := d.members;
      var i := 0;
      while i < |ms|
        invariant 0 <= i <= |ms| && |ms| == |d.members|
        invariant forall k :: 0 <= k < i ==> ms[k] == d.members[k].(md := Posted(d.members[k].md, Row(k), offset[k]))
        invariant forall k :: i <= k < |ms| ==> ms[k] == d.members[k]
      {
        ms := ms[i := ms[i].(md := Posted(ms[i].md, Row(i), offset[i]))];
        i := i + 1;
      }
      r := Ok(Ensemble3C(d.md, ms));
    }
  }
}

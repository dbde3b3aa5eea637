/**
 * The set_metadata filter.  An MDTable holds a list of attribute names
 * with their types and a table of value lines, one blank-separated line
 * per row.  set(d, i, j) puts the row-i value of attribute j into d;
 * set(d, i) puts every attribute of row i.  The filter applies row 0 of
 * the ensemble table to the ensemble and row i of the member table to
 * member i, after checking that the member table has one row per member.
 */
module SetMetadata {
  import opened Failures
  import opened MetadataMaps
  import opened TextTokens
  import opened Seismograms

  /** One entry of a MetadataList: an attribute name and its type. */
  datatype MDEntry = MDEntry(tag: string, mdt: MDType)

  /** The text-to-number conversions (atof, atol and numeric stream extraction). */
  datatype Conversions = Conversions(atof: string -> real, atol: string -> int)

  const RangeError: string := "MDTable::set method:  index out of range\n"
  const NegativeRow: string := RangeError + "tuple index requested was negative"
  const NegativeColumn: string := RangeError + "attribute (column) index requested was negative"
  const RowTooLarge: string := RangeError + "tuple index requested is larger than table size"
  const ColumnTooLarge: string := RangeError + "attribute (column) index requested is larger than list of attributes"

  /** The exit status of the filter when the member table does not match the ensemble. */
  const SizeMismatchExit: int := -1

  function InvalidTypeMessage(name: string): string
  {
    "MDtable::set method Parsing problem.  Name=" + name + " has invalid type defined"
  }

  /** Word k of a line as `stream >> s` leaves it in a fresh string: empty past the last word. */
  function WordAt(ws: seq<string>, k: int): string
  {
    if 0 <= k < |ws| then ws[k] else ""
  }

  /** The types both set methods store: MDreal, MDint and MDstring.  MDboolean falls into the default case. */
  predicate Settable(t: MDType)
  {
    t == RealType || t == IntType || t == StringType
  }

  /** The value a word is stored as under type t. */
  function Converted(cv: Conversions, t: MDType, w: string): (v: MDValue)
    requires Settable(t)
    ensures TypeOf(v) == t
    ensures t == StringType ==> v == StringValue(w)
  {
    if t == RealType then RealValue(cv.atof(w))
    else if t == IntType then IntValue(cv.atol(w))
    else StringValue(w)
  }

  predicate Distinct(nm: seq<string>)
  {
    forall a, b :: 0 <= a < b < |nm| ==> nm[a] != nm[b]
  }

  // ---------------------------------------------------------------------
  // set(d, i, j)
  // ---------------------------------------------------------------------

  /**
   * set(d, i, j): the index checks in the order the source makes them, then
   * word j of row i converted by the type of column j and put under its
   * name; any other type throws.  The result pairs the new attributes with
   * the name of the attribute set.
   */
  function SetField(nm: seq<string>, t: seq<MDType>, strval: seq<string>, cv: Conversions,
                    d: Attributes, i: int, j: int): (r: Result<(Attributes, string)>)
    requires |nm| == |t|
    ensures r.Ok? <==> 0 <= i < |strval| && 0 <= j < |nm| && Settable(t[j])
    ensures r.Ok? ==> r.value.1 == nm[j]
    ensures r.Ok? ==> r.value.0 == d[nm[j] := Converted(cv, t[j], WordAt(Words(strval[i]), j))]
    ensures i < 0 ==> r == Throw(NegativeRow)
    ensures i >= 0 && j < 0 ==> r == Throw(NegativeColumn)
    ensures i >= |strval| && j >= 0 ==> r == Throw(RowTooLarge)
    ensures 0 <= i < |strval| && j >= |nm| ==> r == Throw(ColumnTooLarge)
    ensures 0 <= i < |strval| && 0 <= j < |nm| && !Settable(t[j]) ==> r == Throw(InvalidTypeMessage(nm[j]))
  {
    if i < 0 then Throw(NegativeRow)
    else if j < 0 then Throw(NegativeColumn)
    else if i >= |strval| then Throw(RowTooLarge)
    else if j >= |nm| then Throw(ColumnTooLarge)
    else if !Settable(t[j]) then Throw(InvalidTypeMessage(nm[j]))
    else Ok((d[nm[j] := Converted(cv, t[j], WordAt(Words(strval[i]), j))], nm[j]))
  }

  /**
   * The name set(d, i, j) returns as written: nm[j] read after the loop,
   * where j has run one past the requested column.  None stands for the
   * read past the end of nm that the last column makes.
   */
  function SetFieldNameAsWritten(nm: seq<string>, j0: int): (r: Option<string>)
    requires 0 <= j0 < |nm|
    ensures r.Some? <==> j0 + 1 < |nm|
  {
    var j := j0 + 1;
    if j < |nm| then Some(nm[j]) else None
  }

  /**
   * With the names ["sta", "evid"], setting column 0 puts "sta" but the
   * name returned as written is "evid", and column 1 returns no name at all.
   */
  lemma SetFieldNameAsWrittenIsNextColumn(cv: Conversions, d: Attributes)
    ensures var nm := ["sta", "evid"];
      var r := SetField(nm, [StringType, IntType], ["X1 7"], cv, d, 0, 0);
      && r.Ok? && r.value.1 == "sta" && "sta" in r.value.0
      && SetFieldNameAsWritten(nm, 0) == Some("evid")
      && SetFieldNameAsWritten(nm, 1) == None
  {
    var nm := ["sta", "evid"];
    assert nm[0] == "sta";
  }

  /** set(d, i, j) changes the attribute it names and nothing else. */
  lemma SetFieldChangesOneAttribute(nm: seq<string>, t: seq<MDType>, strval: seq<string>, cv: Conversions,
                                    d: Attributes, i: int, j: int)
    requires |nm| == |t|
    requires SetField(nm, t, strval, cv, d, i, j).Ok?
    ensures var r := SetField(nm, t, strval, cv, d, i, j).value;
      && r.1 in r.0 && TypeOf(r.0[r.1]) == t[j]
      && r.0.Keys == d.Keys + {r.1}
      && forall key :: key in d && key != r.1 ==> r.0[key] == d[key]
  {
  }

  // ---------------------------------------------------------------------
  // set(d, i)
  // ---------------------------------------------------------------------

  /** How many of the types the row setter stores, which is how many words it reads. */
  function SettableCount(ts: seq<MDType>): (n: nat)
    ensures n <= |ts|
  {
    if ts == [] then 0
    else SettableCount(ts[..|ts| - 1]) + (if Settable(ts[|ts| - 1]) then 1 else 0)
  }

  /**
   * The attributes after set(d, i) has handled the first n columns of a
   * row whose words are ws: a column of a stored type takes the next word;
   * any other column is skipped and reads none.
   */
  function FilledRow(nm: seq<string>, t: seq<MDType>, cv: Conversions, ws: seq<string>,
                     d: Attributes, n: nat): Attributes
    requires |nm| == |t| && n <= |nm|
  {
    if n == 0 then d
    else
      var prev := FilledRow(nm, t, cv, ws, d, n - 1);
      if Settable(t[n - 1]) then prev[nm[n - 1] := Converted(cv, t[n - 1], WordAt(ws, SettableCount(t[..n - 1])))]
      else prev
  }

  /** set(d, i): the new attributes and the count of attributes set; a bad row index throws. */
  function SetRow(nm: seq<string>, t: seq<MDType>, strval: seq<string>, cv: Conversions,
                  d: Attributes, i: int): (r: Result<(Attributes, int)>)
    requires |nm| == |t|
    ensures r.Ok? <==> 0 <= i < |strval|
    ensures i < 0 ==> r == Throw(NegativeRow)
    ensures i >= |strval| && i >= 0 ==> r == Throw(RowTooLarge)
    ensures r.Ok? ==> r.value.1 == SettableCount(t)
  {
    if i < 0 then Throw(NegativeRow)
    else if i >= |strval| then Throw(RowTooLarge)
    else Ok((FilledRow(nm, t, cv, Words(strval[i]), d, |nm|), SettableCount(t)))
  }

  /**
   * With distinct names, each stored column k holds the word whose
   * position is the number of stored columns before k; a skipped column
   * and every attribute outside the table keep their old values.
   */
  lemma FilledRowValues(nm: seq<string>, t: seq<MDType>, cv: Conversions, ws: seq<string>,
                        d: Attributes, n: nat)
    requires |nm| == |t| && n <= |nm| && Distinct(nm)
    ensures var f := FilledRow(nm, t, cv, ws, d, n);
      forall k :: 0 <= k < n && Settable(t[k]) ==>
        nm[k] in f && f[nm[k]] == Converted(cv, t[k], WordAt(ws, SettableCount(t[..k])))
    ensures var f := FilledRow(nm, t, cv, ws, d, n);
      forall k :: 0 <= k < n && !Settable(t[k]) ==>
        (nm[k] in f <==> nm[k] in d) && (nm[k] in d ==> f[nm[k]] == d[nm[k]])
    ensures var f := FilledRow(nm, t, cv, ws, d, n);
      forall key :: key !in nm[..n] ==> (key in f <==> key in d) && (key in d ==> f[key] == d[key])
  {
    FilledRowSetsSettable(nm, t, cv, ws, d, n);
    FilledRowKeepsUnsettable(nm, t, cv, ws, d, n);
    FilledRowKeepsOthers(nm, t, cv, ws, d, n);
  }

  /** Each settable column's name holds its converted word. */
  lemma {:induction false} FilledRowSetsSettable(nm: seq<string>, t: seq<MDType>, cv: Conversions, ws: seq<string>,
                                                 d: Attributes, n: nat)
    requires |nm| == |t| && n <= |nm| && Distinct(nm)
    ensures var f := FilledRow(nm, t, cv, ws, d, n);
      forall k :: 0 <= k < n && Settable(t[k]) ==>
        nm[k] in f && f[nm[k]] == Converted(cv, t[k], WordAt(ws, SettableCount(t[..k])))
  {
    if n > 0 {
      FilledRowSetsSettable(nm, t, cv, ws, d, n - 1);
      forall k | 0 <= k < n - 1
        ensures nm[k] != nm[n - 1]
      {
      }
    }
  }

  /** A column that cannot be set keeps whatever the header had under its name. */
  lemma {:induction false} FilledRowKeepsUnsettable(nm: seq<string>, t: seq<MDType>, cv: Conversions, ws: seq<string>,
                                                    d: Attributes, n: nat)
    requires |nm| == |t| && n <= |nm| && Distinct(nm)
    ensures var f := FilledRow(nm, t, cv, ws, d, n);
      forall k :: 0 <= k < n && !Settable(t[k]) ==>
        (nm[k] in f <==> nm[k] in d) && (nm[k] in d ==> f[nm[k]] == d[nm[k]])
  {
    if n > 0 {
      FilledRowKeepsUnsettable(nm, t, cv, ws, d, n - 1);
      FilledRowKeepsOthers(nm, t, cv, ws, d, n - 1);
      forall k | 0 <= k < n - 1
        ensures nm[k] != nm[n - 1]
      {
      }
    }
  }

  /** A key that names none of the first n columns is untouched. */
  lemma {:induction false} FilledRowKeepsOthers(nm: seq<string>, t: seq<MDType>, cv: Conversions, ws: seq<string>,
                                                d: Attributes, n: nat)
    requires |nm| == |t| && n <= |nm|
    ensures var f := FilledRow(nm, t, cv, ws, d, n);
      forall key :: key !in nm[..n] ==> (key in f <==> key in d) && (key in d ==> f[key] == d[key])
  {
    if n > 0 {
      FilledRowKeepsOthers(nm, t, cv, ws, d, n - 1);
      assert nm[..n] == nm[..n - 1] + [nm[n - 1]];
    }
  }

  /** The count set(d, i) returns equals the number of attributes exactly when every type is stored. */
  lemma {:induction false} SettableCountAll(ts: seq<MDType>)
    ensures SettableCount(ts) == |ts| <==> forall k :: 0 <= k < |ts| ==> Settable(ts[k])
  {
    if ts != [] {
      var init := ts[..|ts| - 1];
      SettableCountAll(init);
      assert forall k :: 0 <= k < |init| ==> init[k] == ts[k];
    }
  }

  lemma {:induction false} SettableCountOfStrings(ts: seq<MDType>, k: nat)
    requires k <= |ts| && forall m :: 0 <= m < |ts| ==> ts[m] == StringType
    ensures SettableCount(ts[..k]) == k
  {
    if k > 0 {
      assert ts[..k][..k - 1] == ts[..k - 1];
      SettableCountOfStrings(ts, k - 1);
    }
  }

  /**
   * A row written as its words separated by blanks reads back word for
   * word: with string attributes of distinct names, attribute k of the
   * row set holds word k.
   */
  lemma SetRowReadsWrittenLine(nm: seq<string>, t: seq<MDType>, words: seq<string>, cv: Conversions, d: Attributes)
    requires |nm| == |t| == |words| && Distinct(nm)
    requires forall k :: 0 <= k < |t| ==> t[k] == StringType
    requires forall k :: 0 <= k < |words| ==> IsWord(words[k])
    ensures var r := SetRow(nm, t, [Spaced(words)], cv, d, 0);
      && r.Ok? && r.value.1 == |nm|
      && forall k :: 0 <= k < |nm| ==> nm[k] in r.value.0 && r.value.0[nm[k]] == StringValue(words[k])
  {
    WordsOfLine(words);
    assert SetRow(nm, t, [Spaced(words)], cv, d, 0) == Ok((FilledRow(nm, t, cv, words, d, |nm|), SettableCount(t)));
    SettableCountAll(t);
    FilledRowOfStrings(nm, t, words, cv, d);
  }

  /** The row filled from its own words: string column k holds word k. */
  lemma FilledRowOfStrings(nm: seq<string>, t: seq<MDType>, words: seq<string>, cv: Conversions, d: Attributes)
    requires |nm| == |t| == |words| && Distinct(nm)
    requires forall k :: 0 <= k < |t| ==> t[k] == StringType
    ensures var f := FilledRow(nm, t, cv, words, d, |nm|);
      forall k :: 0 <= k < |nm| ==> nm[k] in f && f[nm[k]] == StringValue(words[k])
  {
    var f := FilledRow(nm, t, cv, words, d, |nm|);
    FilledRowValues(nm, t, cv, words, d, |nm|);
    forall k | 0 <= k < |nm|
      ensures nm[k] in f && f[nm[k]] == StringValue(words[k])
    {
      SettableCountOfStrings(t, k);
      assert f[nm[k]] == Converted(cv, t[k], WordAt(words, k));
    }
  }

  // ---------------------------------------------------------------------
  // The table object
  // ---------------------------------------------------------------------

  class MDTable {
    var nm: seq<string>
    var t: seq<MDType>
    var strval: seq<string>

    predicate Valid()
      reads this
    {
      |nm| == |t|
    }

    /** MDTable(pfmd): the names and types in list order, then one value line per table row. */
    constructor (types: seq<MDEntry>, values: seq<string>)
      ensures Valid()
      ensures |nm| == |types| && forall k :: 0 <= k < |types| ==> nm[k] == types[k].tag && t[k] == types[k].mdt
      ensures strval == values
    {
      var names: seq<string> := [];
      var kinds: seq<MDType> := [];
      var k := 0;
      while k < |types|
        invariant 0 <= k <= |types|
        invariant |names| == k && |kinds| == k
        invariant forall m :: 0 <= m < k ==> names[m] == types[m].tag && kinds[m] == types[m].mdt
      {
        names := names + [types[k].tag];
        kinds := kinds + [types[k].mdt];
        k := k + 1;
      }
      var lines: seq<string> := [];
      k := 0;
      while k < |values|
        invariant 0 <= k <= |values|
        invariant lines == values[..k]
      {
        lines := lines + [values[k]];
        k := k + 1;
      }
      assert values[..|values|] == values;
      nm := names;
      t := kinds;
      strval := lines;
    }

    /**
     * set(d, i0, j0), reading the words of row i0 up to column j0 and
     * converting the last one.  It returns the name of the attribute it
     * set, which is the corrected return value.
     */
    method SetOne(cv: Conversions, d: Attributes, i0: int, j0: int) returns (r: Result<(Attributes, string)>)
      requires Valid()
      ensures r == SetField(nm, t, strval, cv, d, i0, j0)
    {
      if i0 < 0 {
        return Throw(NegativeRow);
      }
      if j0 < 0 {
        return Throw(NegativeColumn);
      }
      if i0 >= |strval| {
        return Throw(RowTooLarge);
      }
      if j0 >= |nm| {
        return Throw(ColumnTooLarge);
      }
      var ws := Words(strval[i0]);
      var md := d;
      var j := 0;
      while j <= j0
        invariant 0 <= j <= j0 + 1
        invariant j <= j0 ==> md == d
        invariant j == j0 + 1 ==> Settable(t[j0]) && md == d[nm[j0] := Converted(cv, t[j0], WordAt(ws, j0))]
      {
        var sNow := WordAt(ws, j);
        if j < j0 {
          j := j + 1;
          continue;
        }
        if t[j] == RealType {
          md := md[nm[j] := RealValue(cv.atof(sNow))];
        } else if t[j] == IntType {
          md := md[nm[j] := IntValue(cv.atol(sNow))];
        } else if t[j] == StringType {
          md := md[nm[j] := StringValue(sNow)];
        } else {
          return Throw(InvalidTypeMessage(nm[j]));
        }
        j := j + 1;
      }
      return Ok((md, nm[j0]));
    }

    /** set(d, i0), reading the words of row i0 in order and counting the attributes set. */
    method SetAll(cv: Conversions, d: Attributes, i0: int) returns (r: Result<(Attributes, int)>)
      requires Valid()
      ensures r == SetRow(nm, t, strval, cv, d, i0)
    {
      if i0 < 0 {
        return Throw(NegativeRow);
      }
      if i0 >= |strval| {
        return Throw(RowTooLarge);
      }
      var ws := Words(strval[i0]);
      var md := d;
      var pos := 0;
      var count := 0;
      var j := 0;
      while j < |nm|
        invariant 0 <= j <= |nm|
        invariant count == pos == SettableCount(t[..j])
        invariant md == FilledRow(nm, t, cv, ws, d, j)
      {
        assert t[..j + 1][..j] == t[..j];
        if t[j] == RealType {
          md := md[nm[j] := RealValue(cv.atof(WordAt(ws, pos)))];
          pos, count := pos + 1, count + 1;
        } else if t[j] == IntType {
          md := md[nm[j] := IntValue(cv.atol(WordAt(ws, pos)))];
          pos, count := pos + 1, count + 1;
        } else if t[j] == StringType {
          md := md[nm[j] := StringValue(WordAt(ws, pos))];
          pos, count := pos + 1, count + 1;
        }
        j := j + 1;
      }
      assert t[..|nm|] == t;
      return Ok((md, count));
    }
  }

  // ---------------------------------------------------------------------
  // main
  // ---------------------------------------------------------------------

  /**
   * The filter on one ensemble: exit(-1) when the member table does not
   * have one row per member; otherwise ensemble-table row 0 goes to the
   * ensemble (a missing row throws and nothing is written) and member-table
   * row i to member i, whose other fields stay as they were.
   */
  method Apply(ens: MDTable, mem: MDTable, cv: Conversions, d: Ensemble3C) returns (r: Result<Ensemble3C>)
    requires ens.Valid() && mem.Valid()
    ensures |mem.strval| != |d.members| ==> r == Exit(SizeMismatchExit)
    ensures |mem.strval| == |d.members| && SetRow(ens.nm, ens.t, ens.strval, cv, d.md, 0).Err? ==>
      r == Err(SetRow(ens.nm, ens.t, ens.strval, cv, d.md, 0).failure)
    ensures |mem.strval| == |d.members| && SetRow(ens.nm, ens.t, ens.strval, cv, d.md, 0).Ok? ==>
      (&& r.Ok?
       && r.value.md == SetRow(ens.nm, ens.t, ens.strval, cv, d.md, 0).value.0
       && |r.value.members| == |d.members|
       && forall i :: 0 <= i < |d.members| ==>
            r.value.members[i] == d.members[i].(md := SetRow(mem.nm, mem.t, mem.strval, cv, d.members[i].md, i).value.0))
  {
    if |mem.strval| != |d.members| {
      return Exit(SizeMismatchExit);
    }
    var e := ens.SetAll(cv, d.md, 0);
    if e.Err? {
      return Err(e.failure);
    }
    var members := d.members;
    var i := 0;
    while i < |members|
      invariant 0 <= i <= |members| && |members| == |d.members|
      invariant forall m :: 0 <= m < i ==>
        members[m] == d.members[m].(md := SetRow(mem.nm, mem.t, mem.strval, cv, d.members[m].md, m).value.0)
      invariant forall m :: i <= m < |members| ==> members[m] == d.members[m]
    {
      var s := mem.SetAll(cv, members[i].md, i);
      members := members[i := members[i].(md := s.value.0)];
      i := i + 1;
    }
    return Ok(Ensemble3C(e.value.0, members));
  }
}

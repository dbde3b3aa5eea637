/**
 * The listhdr filter.  It lists the metadata of a stream of serialized
 * objects: an index of file offsets is built first, stopping at the first
 * object that does not read or after a million objects, and each object's
 * metadata is then dumped whole or written as one CSV line whose columns a
 * format file defines, one "key type undefined_value" line per column.
 */
module ListHdr {
  import opened Failures
  import opened MetadataMaps
  import opened TextTokens

  /** The object types -t accepts. */
  datatype ObjectType = TCS | TCE | PMTS

  /** The exit status of every fatal error of the program. */
  const FatalExit: int := -1

  /** get_object_type: the three type names, anything else ends the program. */
  function ObjectTypeOf(otype: string): (r: Result<ObjectType>)
    ensures r == Ok(TCS) <==> otype == "ThreeComponentSeismogram"
    ensures r == Ok(TCE) <==> otype == "ThreeComponentEnsemble"
    ensures r == Ok(PMTS) <==> otype == "PMTimeSeries"
    ensures r.Err? ==> r == Exit(FatalExit)
  {
    if otype == "ThreeComponentSeismogram" then Ok(TCS)
    else if otype == "ThreeComponentEnsemble" then Ok(TCE)
    else if otype == "PMTimeSeries" then Ok(PMTS)
    else Exit(FatalExit)
  }

  // ---------------------------------------------------------------------
  // build_index
  // ---------------------------------------------------------------------

  /** The safety valve on the number of objects indexed. */
  const NdMax: int := 1000000

  /**
   * build_index: attempts[k] is what reading object k gives (its end offset,
   * or None for an archive exception; reading past the end of attempts
   * throws too).  The index holds the offsets of the objects read before
   * the first exception, at most NdMax of them.
   */
  method BuildIndex(attempts: seq<Option<nat>>) returns (offs: seq<nat>)
    ensures |offs| <= NdMax && |offs| <= |attempts|
    ensures forall k :: 0 <= k < |offs| ==> attempts[k] == Some(offs[k])
    ensures |offs| < NdMax ==> |offs| >= |attempts| || attempts[|offs|].None?
  {
    offs := [];
    var nd := 0;
    while nd < NdMax && nd < |attempts| && attempts[nd].Some?
      invariant nd == |offs| <= NdMax && nd <= |attempts|
      invariant forall k :: 0 <= k < |offs| ==> attempts[k] == Some(offs[k])
    {
      offs := offs + [attempts[nd].value];
      nd := nd + 1;
    }
  }

  // ---------------------------------------------------------------------
  // parse_csv_format_file
  // ---------------------------------------------------------------------

  /** A MetadataComponent: the key, its type and the text written when the key is missing. */
  datatype Component = Component(key: string, mdt: MDType, undefinedValue: string)

  /** The type words of a format line. */
  function TypeWord(w: string): (r: Option<MDType>)
    ensures r == Some(RealType) <==> w == "double" || w == "MDreal" || w == "real" || w == "float"
    ensures r == Some(IntType) <==> w == "int" || w == "MDint" || w == "log"
    ensures r == Some(BoolType) <==> w == "boolean"
    ensures r == Some(StringType) <==> w == "string" || w == "String" || w == "MDstring"
    ensures r != Some(InvalidType)
  {
    if w == "double" || w == "MDreal" || w == "real" || w == "float" then Some(RealType)
    else if w == "int" || w == "MDint" || w == "log" then Some(IntType)
    else if w == "boolean" then Some(BoolType)
    else if w == "string" || w == "String" || w == "MDstring" then Some(StringType)
    else None
  }

  /** Word k of a line as `stream >> s` reads it into a fresh string: empty past the last word. */
  function WordAt(ws: seq<string>, k: nat): string
  {
    if k < |ws| then ws[k] else ""
  }

  /** One format line: key, type word and undefined value; an unknown type word ends the program. */
  function FormatLine(line: string): (r: Result<Component>)
    ensures r.Ok? <==> TypeWord(WordAt(Words(line), 1)).Some?
    ensures r.Err? ==> r == Exit(FatalExit)
  {
    var ws := Words(line);
    var t := TypeWord(WordAt(ws, 1));
    if t.None? then Exit(FatalExit)
    else Ok(Component(WordAt(ws, 0), t.value, WordAt(ws, 2)))
  }

  /** The longest line getline(inpline, 128) stores: 127 characters. */
  const LineCapacity: int := 127

  /** The number of lines read before the first line too long for the buffer. */
  function LinesRead(lines: seq<string>): (n: nat)
    ensures n <= |lines|
    ensures forall k :: 0 <= k < n ==> |lines[k]| <= LineCapacity
    ensures n < |lines| ==> |lines[n]| > LineCapacity
  {
    if lines == [] || |lines[0]| > LineCapacity then 0 else 1 + LinesRead(lines[1..])
  }

  /** The components of the lines ls, in order; the first bad type word ends the program. */
  function Components(ls: seq<string>): (r: Result<seq<Component>>)
    ensures r.Ok? ==> |r.value| == |ls|
    ensures r.Err? ==> r == Exit(FatalExit)
  {
    if ls == [] then Ok([])
    else
      var prev := Components(ls[..|ls| - 1]);
      var c := FormatLine(ls[|ls| - 1]);
      if prev.Err? then prev
      else if c.Err? then Exit(FatalExit)
      else Ok(prev.value + [c.value])
  }

  /** parse_csv_format_file: the lines of the file up to the first one too long for the buffer. */
  function FormatFile(lines: seq<string>): Result<seq<Component>>
  {
    Components(lines[..LinesRead(lines)])
  }

  /** Each line yields its own component, in file order, and the file parses iff every type word is known. */
  lemma {:induction false} ComponentsPerLine(ls: seq<string>)
    ensures Components(ls).Ok? <==> forall k :: 0 <= k < |ls| ==> FormatLine(ls[k]).Ok?
    ensures Components(ls).Ok? ==> forall k :: 0 <= k < |ls| ==> Components(ls).value[k] == FormatLine(ls[k]).value
  {
    if ls != [] {
      var init := ls[..|ls| - 1];
      ComponentsPerLine(init);
      assert forall k :: 0 <= k < |init| ==> init[k] == ls[k];
    }
  }

  /** A line written as key, type word and undefined value separated by blanks reads back as that component. */
  lemma FormatLineReadsWritten(key: string, typeWord: string, undefinedValue: string)
    requires IsWord(key) && IsWord(typeWord) && IsWord(undefinedValue)
    requires TypeWord(typeWord).Some?
    ensures FormatLine(Spaced([key, typeWord, undefinedValue])) ==
      Ok(Component(key, TypeWord(typeWord).value, undefinedValue))
  {
    var ws := [key, typeWord, undefinedValue];
    WordsOfLine(ws);
  }

  lemma ComponentsStep(lines: seq<string>, k: nat)
    requires k < |lines|
    ensures Components(lines[..k + 1]) ==
      (if Components(lines[..k]).Err? then Components(lines[..k])
       else if FormatLine(lines[k]).Err? then Exit(FatalExit)
       else Ok(Components(lines[..k]).value + [FormatLine(lines[k]).value]))
  {
    assert lines[..k + 1][..k] == lines[..k];
    assert lines[..k + 1][k] == lines[k];
  }

  /** A bad type word on any line read makes the whole format file fatal. */
  lemma FormatFileFailsAt(lines: seq<string>, k: nat)
    requires k < LinesRead(lines) && FormatLine(lines[k]).Err?
    ensures FormatFile(lines) == Exit(FatalExit)
  {
    ComponentsPerLine(lines[..LinesRead(lines)]);
    assert lines[..LinesRead(lines)][k] == lines[k];
  }

  /**
   * parse_csv_format_file, line by line until getline fails; `file` is the
   * format file's lines, or None when it cannot be opened, which is fatal.
   */
  method ParseCsvFormatFile(file: Option<seq<string>>) returns (r: Result<seq<Component>>)
    ensures file.None? ==> r == Exit(FatalExit)
    ensures file.Some? ==> r == FormatFile(file.value)
  {
    if file.None? {
      return Exit(FatalExit);
    }
    var lines := file.value;
    var result: seq<Component> := [];
    var k := 0;
    while k < |lines| && |lines[k]| <= LineCapacity
      invariant 0 <= k <= LinesRead(lines)
      invariant Components(lines[..k]) == Ok(result)
    {
      ComponentsStep(lines, k);
      var c := FormatLine(lines[k]);
      if c.Err? {
        FormatFileFailsAt(lines, k);
        return Exit(FatalExit);
      }
      result := result + [c.value];
      k := k + 1;
    }
    assert k == LinesRead(lines);
    return Ok(result);
  }

  // ---------------------------------------------------------------------
  // WriteToCSVFile
  // ---------------------------------------------------------------------

  /** A bool written with operator<<: 1 or 0. */
  function BoolToken(b: bool): Token
  {
    if b then Int(1) else Int(0)
  }

  /**
   * The field of one component: the value of its key read under its type,
   * with whether the read succeeded; a missing key writes the undefined
   * value.  A component of no listed type ends the program.
   */
  function Field(d: Attributes, c: Component): (r: Result<(Token, bool)>)
    ensures r.Err? <==> c.mdt == InvalidType
    ensures r.Err? ==> r == Exit(FatalExit)
    ensures r.Ok? ==> (r.value.1 <==> c.key in d && TypeOf(d[c.key]) == c.mdt)
    ensures r.Ok? && !r.value.1 ==> r.value.0 == Text(c.undefinedValue)
    ensures r.Ok? && r.value.1 ==> r.value.0 == ValueToken(d[c.key])
  {
    match c.mdt
    case RealType =>
      var v := GetReal(d, c.key);
      if v.Ok? then Ok((Real(v.value), true)) else Ok((Text(c.undefinedValue), false))
    case IntType =>
      var v := GetInt(d, c.key);
      if v.Ok? then Ok((Int(v.value), true)) else Ok((Text(c.undefinedValue), false))
    case StringType =>
      var v := GetString(d, c.key);
      if v.Ok? then Ok((Text(v.value), true)) else Ok((Text(c.undefinedValue), false))
    case BoolType =>
      var v := GetBool(d, c.key);
      if v.Ok? then Ok((BoolToken(v.value), true)) else Ok((Text(c.undefinedValue), false))
    case InvalidType => Exit(FatalExit)
  }

  /** How a stored value is written. */
  function ValueToken(v: MDValue): Token
  {
    match v
    case RealValue(x) => Real(x)
    case IntValue(n) => Int(n)
    case StringValue(s) => Text(s)
    case BoolValue(b) => BoolToken(b)
  }

  /** Fields separated by commas, with no comma after the last. */
  function Joined(fs: seq<Token>): (r: seq<Token>)
  {
    if fs == [] then []
    else if |fs| == 1 then fs
    else Joined(fs[..|fs| - 1]) + [Text(","), fs[|fs| - 1]]
  }

  lemma {:induction false} JoinedLength(fs: seq<Token>)
    ensures |Joined(fs)| == if fs == [] then 0 else 2 * |fs| - 1
  {
    if |fs| > 1 {
      JoinedLength(fs[..|fs| - 1]);
    }
  }

  lemma {:induction false} JoinedAt(fs: seq<Token>, k: nat)
    requires k < |fs|
    ensures |Joined(fs)| == 2 * |fs| - 1
    ensures Joined(fs)[2 * k] == fs[k]
    ensures k < |fs| - 1 ==> Joined(fs)[2 * k + 1] == Text(",")
  {
    JoinedLength(fs);
    if |fs| > 1 {
      var init := fs[..|fs| - 1];
      JoinedLength(init);
      if k < |init| {
        JoinedAt(init, k);
        assert init[k] == fs[k];
      }
    }
  }

  /** Field k sits at position 2k and a comma after every field but the last. */
  lemma JoinedLayout(fs: seq<Token>)
    ensures |fs| > 0 ==> |Joined(fs)| == 2 * |fs| - 1
    ensures |fs| == 0 ==> Joined(fs) == []
    ensures forall k :: 0 <= k < |fs| ==> Joined(fs)[2 * k] == fs[k]
    ensures forall k :: 0 <= k < |fs| - 1 ==> Joined(fs)[2 * k + 1] == Text(",")
  {
    JoinedLength(fs);
    forall k | 0 <= k < |fs|
      ensures Joined(fs)[2 * k] == fs[k]
      ensures k < |fs| - 1 ==> Joined(fs)[2 * k + 1] == Text(",")
    {
      JoinedAt(fs, k);
    }
  }

  /** The fields of the components and the number of keys found, or the exit. */
  function Fields(d: Attributes, mdl: seq<Component>): (r: Result<(seq<Token>, nat)>)
    ensures r.Ok? ==> |r.value.0| == |mdl| && r.value.1 <= |mdl|
  {
    if mdl == [] then Ok(([], 0))
    else
      var prev := Fields(d, mdl[..|mdl| - 1]);
      var f := Field(d, mdl[|mdl| - 1]);
      if prev.Err? then prev
      else if f.Err? then Exit(FatalExit)
      else Ok((prev.value.0 + [f.value.0], prev.value.1 + (if f.value.1 then 1 else 0)))
  }

  /** The fields are found exactly when every component has a valid type. */
  lemma {:induction false} FieldsFoundIffTyped(d: Attributes, mdl: seq<Component>)
    ensures Fields(d, mdl).Ok? <==> forall k :: 0 <= k < |mdl| ==> mdl[k].mdt != InvalidType
  {
    if mdl != [] {
      var init := mdl[..|mdl| - 1];
      FieldsFoundIffTyped(d, init);
      assert forall k :: 0 <= k < |init| ==> init[k] == mdl[k];
    }
  }

  /** Field k of the line is field k of component k. */
  lemma {:induction false} FieldsPerComponent(d: Attributes, mdl: seq<Component>)
    requires Fields(d, mdl).Ok?
    ensures forall k :: 0 <= k < |mdl| ==> Field(d, mdl[k]).Ok? && Fields(d, mdl).value.0[k] == Field(d, mdl[k]).value.0
  {
    if mdl != [] {
      var init := mdl[..|mdl| - 1];
      FieldsPerComponent(d, init);
      assert forall k :: 0 <= k < |init| ==> init[k] == mdl[k];
    }
  }

  /** The count of keys found is the number of components whose key is present under its type. */
  lemma {:induction false} FieldsCountFound(d: Attributes, mdl: seq<Component>)
    requires Fields(d, mdl).Ok?
    ensures Fields(d, mdl).value.1 == |mdl| <==> forall k :: 0 <= k < |mdl| ==> mdl[k].key in d && TypeOf(d[mdl[k].key]) == mdl[k].mdt
  {
    if mdl != [] {
      var init := mdl[..|mdl| - 1];
      FieldsCountFound(d, init);
      assert forall k :: 0 <= k < |init| ==> init[k] == mdl[k];
    }
  }

  /** WriteToCSVFile with its count started at zero: the line written and the number of keys found. */
  function CsvLine(d: Attributes, mdl: seq<Component>): (r: Result<(seq<Token>, nat)>)
  {
    var fs := Fields(d, mdl);
    if fs.Err? then Exit(FatalExit) else Ok((Joined(fs.value.0) + [Endl], fs.value.1))
  }

  /**
   * The line holds the fields in format order at the even positions, a
   * comma between neighbours, and ends with the newline.
   */
  lemma CsvLineLayout(d: Attributes, mdl: seq<Component>)
    requires forall k :: 0 <= k < |mdl| ==> mdl[k].mdt != InvalidType
    ensures var r := CsvLine(d, mdl);
      && r.Ok?
      && |r.value.0| == (if mdl == [] then 1 else 2 * |mdl|)
      && r.value.0[|r.value.0| - 1] == Endl
      && (forall k :: 0 <= k < |mdl| ==> r.value.0[2 * k] == Field(d, mdl[k]).value.0)
      && (forall k :: 0 <= k < |mdl| - 1 ==> r.value.0[2 * k + 1] == Text(","))
  {
    FieldsFoundIffTyped(d, mdl);
    var fs := Fields(d, mdl).value.0;
    JoinedLayout(fs);
    FieldsPerComponent(d, mdl);
  }

  /**
   * WriteToCSVFile as written: nsaved is never set before it is first
   * incremented, so the count returned is the count of keys found plus
   * whatever the variable held.
   */
  function CsvCountAsWritten(indeterminate: int, d: Attributes, mdl: seq<Component>): (r: Result<int>)
    ensures r.Ok? <==> CsvLine(d, mdl).Ok?
  {
    var fs := Fields(d, mdl);
    if fs.Err? then Exit(FatalExit) else Ok(indeterminate + fs.value.1)
  }

  /** With no key present, the count is zero, but as written it is whatever nsaved held. */
  lemma CsvCountAsWrittenIsIndeterminate(d: Attributes, indeterminate: int)
    requires indeterminate != 0
    ensures var mdl := [Component("nosuchkey", IntType, "-1")];
      && "nosuchkey" !in d ==> (CsvLine(d, mdl).Ok? && CsvLine(d, mdl).value.1 == 0 && CsvCountAsWritten(indeterminate, d, mdl) != Ok(0))
  {
    var mdl := [Component("nosuchkey", IntType, "-1")];
    assert mdl[..|mdl| - 1] == [];
    assert Fields(d, []) == Ok(([], 0));
    assert Field(d, mdl[0]).Ok?;
    assert "nosuchkey" !in d ==> !Field(d, mdl[0]).value.1;
    assert Fields(d, mdl).Ok?;
  }

  lemma JoinedSnoc(fs: seq<Token>, x: Token)
    ensures Joined(fs + [x]) == if fs == [] then [x] else Joined(fs) + [Text(","), x]
  {
    assert (fs + [x])[..|fs|] == fs;
  }

  lemma FieldsStep(d: Attributes, mdl: seq<Component>, i: nat, fields: seq<Token>, nsaved: nat, f: (Token, bool))
    requires i < |mdl| && Fields(d, mdl[..i]) == Ok((fields, nsaved)) && Field(d, mdl[i]) == Ok(f)
    ensures Fields(d, mdl[..i + 1]) == Ok((fields + [f.0], nsaved + (if f.1 then 1 else 0)))
  {
    assert mdl[..i + 1][..i] == mdl[..i];
    assert mdl[..i + 1][i] == mdl[i];
  }

  lemma CsvLineFails(d: Attributes, mdl: seq<Component>, i: nat)
    requires i < |mdl| && mdl[i].mdt == InvalidType
    ensures CsvLine(d, mdl) == Exit(FatalExit)
  {
    FieldsFoundIffTyped(d, mdl);
  }

  lemma CsvLineOfAll(d: Attributes, mdl: seq<Component>, fields: seq<Token>, nsaved: nat)
    requires Fields(d, mdl[..|mdl|]) == Ok((fields, nsaved))
    ensures CsvLine(d, mdl) == Ok((Joined(fields) + [Endl], nsaved))
  {
    assert mdl[..|mdl|] == mdl;
  }

  /** The output written after i of n fields: the joined fields, then a comma while more follow. */
  function CsvPrefix(fields: seq<Token>, i: nat, n: nat): seq<Token>
  {
    if 0 < i < n then Joined(fields) + [Text(",")] else Joined(fields)
  }

  lemma CsvPrefixStep(fields: seq<Token>, field: Token, i: nat, n: nat)
    requires i < n && |fields| == i
    ensures CsvPrefix(fields, i, n) + [field] + (if i < n - 1 then [Text(",")] else [])
      == CsvPrefix(fields + [field], i + 1, n)
  {
    JoinedSnoc(fields, field);
  }

  /** One field written: the field, then a comma unless it is the last of n. */
  method WriteField(out: seq<Token>, fields: seq<Token>, field: Token, i: nat, n: nat) returns (out': seq<Token>)
    requires i < n && |fields| == i && out == CsvPrefix(fields, i, n)
    ensures out' == CsvPrefix(fields + [field], i + 1, n)
  {
    CsvPrefixStep(fields, field, i, n);
    out' := out + [field];
    if i < n - 1 {
      out' := out' + [Text(",")];
    }
  }

  /** WriteToCSVFile, field by field, returning the line and the count of keys found. */
  method WriteToCsv(d: Attributes, mdl: seq<Component>) returns (r: Result<(seq<Token>, nat)>)
    ensures r == CsvLine(d, mdl)
  {
    var out: seq<Token> := [];
    var fields: seq<Token> := [];
    var nsaved := 0;
    var i := 0;
    while i < |mdl|
      invariant 0 <= i <= |mdl|
      invariant Fields(d, mdl[..i]) == Ok((fields, nsaved))
      invariant out == CsvPrefix(fields, i, |mdl|)
    {
      var f := Field(d, mdl[i]);
      if f.Err? {
        CsvLineFails(d, mdl, i);
        return Exit(FatalExit);
      }
      FieldsStep(d, mdl, i, fields, nsaved, f.value);
      out := WriteField(out, fields, f.value.0, i, |mdl|);
      if f.value.1 {
        nsaved := nsaved + 1;
      }
      fields := fields + [f.value.0];
      i := i + 1;
    }
    CsvLineOfAll(d, mdl, fields, nsaved);
    return Ok((out + [Endl], nsaved));
  }
}

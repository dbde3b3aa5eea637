/**
 * Sequential text files of serialized objects (SeisppIOStream.cc and
 * seispp_io.h).  The writer puts a more-data tag line between objects and
 * ends the output with a fixed-size trailer block holding the end-of-data
 * tag and the number of objects written; the reader checks that trailer,
 * remembers the count and counts the objects it reads.
 *
 * The serialization archive itself is not modelled: the text the archive
 * writes for an object, and whether the archive manages to read one back,
 * are parameters of the operations.
 */
module SeisppIOStream {
  import opened Failures
  import opened TextTokens
  import opened DecimalText

  /** Size in bytes of the trailer block (TextIOStreamEOFOffset). */
  const EOFOffset: int := 64

  /** The magic string the header declares; the code tests the eof tag instead. */
  const MagicTag: string := "SEISPP_FIlE_IS_VALID"

  /** The value of std::ios_base::end, a seekdir constant (2 in libstdc++). */
  const SeekDirEnd: int := 2

  /**
   * The end-of-data tag and the more-data tag.  They are declared in
   * seispp.h, which is not part of this model, so they are parameters.
   */
  datatype Tags = Tags(eof: string, moreData: string)

  /** Both tags are single words and they differ. */
  predicate TagsValid(t: Tags)
  {
    IsWord(t.eof) && IsWord(t.moreData) && t.eof != t.moreData
  }

  const ReadFailedMessage: string :=
    "TextIOStreamReader read method:  boost text serialization read failed\n"
    + "Check that input is a valid boost text serialization file"

  const RewindMessage: string :=
    "TextIOStreamReader rewind method:  input is tied to stdin - rewind is not possible for stdin"

  const WriteFailedMessage: string :=
    "TextIOStreamWriter write method failed\n"
    + "Is serialization defined for this object type?\n"
    + "Do you have write permission for output directory?"

  const ReadObjectMessage: string :=
    "read_object failed:  Check that input file is a boost text archive file"

  const WriteObjectMessage: string :=
    "write_object failed\n"
    + "Is serialization defined for this object type?\n"
    + "Do you have write permission for output directory?"

  function CannotOpenMessage(fname: string): string
  {
    "TextIOStreamReader file constructor:  cannot open file " + fname + " for input"
  }

  function InvalidFileMessage(fname: string): string
  {
    "TextIOStreamReader file constructor:  File " + fname
    + " does not appear to be a valid seispp boost serialization file"
  }

  function WriterOpenMessage(fname: string): string
  {
    "TextIOStreamWriter file constructor:  open failed on file " + fname + " for output"
  }

  // ---------------------------------------------------------------------
  // The trailer block

  /** The text sprintf("%s %ld\n") formats into the trailer buffer. */
  function TrailerText(tags: Tags, n: int): string
  {
    tags.eof + " " + IntText(n) + "\n"
  }

  /** The trailer fits its buffer with room for the terminating NUL. */
  predicate TrailerFits(tags: Tags, n: int)
  {
    |TrailerText(tags, n)| < EOFOffset
  }

  /**
   * The 64 characters the writer's destructor emits: the formatted text,
   * the NUL sprintf stores after it, and whatever the rest of the freshly
   * allocated buffer holds (`rest`).
   */
  function TrailerBlock(tags: Tags, n: int, rest: string): (b: string)
    requires TrailerFits(tags, n)
    requires |rest| == EOFOffset - |TrailerText(tags, n)| - 1
    ensures |b| == EOFOffset
    ensures b[..|TrailerText(tags, n)|] == TrailerText(tags, n)
  {
    TrailerText(tags, n) + [0 as char] + rest
  }

  /** The first word `stream >> s` extracts, or "" when none is left. */
  function FirstWord(s: string): string
  {
    var ws := Words(s);
    if ws == [] then "" else ws[0]
  }

  /**
   * `stream >> long` on one word: an optional minus sign and the leading
   * digits; a failed extraction stores 0.
   */
  function ParseLong(w: string): int
  {
    var p := if |w| > 0 && w[0] == '-' then ParseNat(w[1..]) else ParseNat(w);
    if p.None? then 0
    else if |w| > 0 && w[0] == '-' then -(p.value as int)
    else p.value
  }

  /**
   * What the file constructor finds after seeking to position pos of file:
   * the eof tag must come first, and the count follows it.  A seek outside
   * the file fails, and nothing can be extracted after it.
   */
  function TrailerAt(tags: Tags, fname: string, file: string, pos: int): (r: Result<int>)
    ensures r.Ok? <==> FirstWord(if 0 <= pos <= |file| then file[pos..] else "") == tags.eof
    ensures r.Err? ==> r == Throw(InvalidFileMessage(fname))
  {
    var ws := Words(if 0 <= pos <= |file| then file[pos..] else "");
    if FirstWord(if 0 <= pos <= |file| then file[pos..] else "") != tags.eof then Throw(InvalidFileMessage(fname))
    else if |ws| < 2 then Ok(0)
    else Ok(ParseLong(ws[1]))
  }

  /** The object count of a file, with the trailer read from the last 64 bytes. */
  function OpenedCount(tags: Tags, fname: string, canOpen: bool, file: string): Result<int>
  {
    if !canOpen then Throw(CannotOpenMessage(fname))
    else TrailerAt(tags, fname, file, |file| - EOFOffset)
  }

  /** The same, seeking to the absolute position ios_base::end - 64, as written. */
  function OpenedCountAsWritten(tags: Tags, fname: string, canOpen: bool, file: string): Result<int>
  {
    if !canOpen then Throw(CannotOpenMessage(fname))
    else TrailerAt(tags, fname, file, SeekDirEnd - EOFOffset)
  }

  /** As written, the seek lands before the start of every file, so no file opens. */
  lemma OpenAsWrittenAlwaysFails(tags: Tags, fname: string, file: string)
    requires TagsValid(tags)
    ensures OpenedCountAsWritten(tags, fname, true, file) == Throw(InvalidFileMessage(fname))
  {
    assert SeekDirEnd - EOFOffset < 0;
    assert Words("") == [];
  }

  lemma WordsOfLeadingWord(w: string, rest: string)
    requires IsWord(w)
    requires rest == [] || IsSpace(rest[0])
    ensures Words(w + rest) == [w] + Words(rest)
  {
    WordLengthOfWord(w, rest);
    assert (w + rest)[..|w|] == w;
    assert (w + rest)[|w|..] == rest;
  }

  lemma DigitsAreWord(s: string)
    requires |s| > 0
    requires forall k :: 0 <= k < |s| ==> IsDigit(s[k])
    ensures IsWord(s)
  {
  }

  lemma WordsSkipsSpace(c: char, x: string)
    requires IsSpace(c)
    ensures Words([c] + x) == Words(x)
  {
    assert ([c] + x)[1..] == x;
  }

  lemma ParseLongOfNatText(n: nat)
    ensures ParseLong(NatText(n)) == n
  {
    var digits := NatText(n);
    NatTextRoundTrip(n, "");
    assert digits + "" == digits;
    assert IsDigit(digits[0]);
  }

  /** The words of a trailer block: the eof tag, the count's digits, then the rest. */
  lemma WordsOfTrailer(tags: Tags, n: nat, rest: string)
    requires IsWord(tags.eof)
    ensures Words(TrailerText(tags, n) + [0 as char] + rest)
      == [tags.eof, NatText(n)] + Words("\n" + [0 as char] + rest)
  {
    var digits := NatText(n);
    var tail := "\n" + [0 as char] + rest;
    var afterTag := [' '] + (digits + tail);
    assert TrailerText(tags, n) + [0 as char] + rest == tags.eof + afterTag;
    WordsOfLeadingWord(tags.eof, afterTag);
    WordsSkipsSpace(' ', digits + tail);
    DigitsAreWord(digits);
    WordsOfLeadingWord(digits, tail);
  }

  /**
   * Reading the trailer of any file that ends with the block the writer
   * emitted for n objects gives back n.
   */
  lemma TrailerRoundTrip(tags: Tags, fname: string, prefix: string, n: nat, rest: string)
    requires TagsValid(tags)
    requires TrailerFits(tags, n)
    requires |rest| == EOFOffset - |TrailerText(tags, n)| - 1
    ensures OpenedCount(tags, fname, true, prefix + TrailerBlock(tags, n, rest)) == Ok(n)
  {
    var block := TrailerBlock(tags, n, rest);
    var file := prefix + block;
    assert file[|file| - EOFOffset..] == block;
    WordsOfTrailer(tags, n, rest);
    ParseLongOfNatText(n);
  }

  // ---------------------------------------------------------------------
  // What the writer emits

  /** The tag line written before an object when n objects precede it. */
  function Separator(tags: Tags, n: int): string
  {
    if n > 0 then tags.moreData + "\n" else ""
  }

  /** The text that follows an object whose successors are xs. */
  function Following(tags: Tags, xs: seq<string>): string
  {
    if xs == [] then "" else tags.moreData + "\n" + xs[0] + Following(tags, xs[1..])
  }

  /** The text of a run of objects written one after another. */
  function Framed(tags: Tags, objs: seq<string>): string
  {
    if objs == [] then "" else objs[0] + Following(tags, objs[1..])
  }

  lemma {:induction false} FollowingAppend(tags: Tags, xs: seq<string>, x: string)
    ensures Following(tags, xs + [x]) == Following(tags, xs) + tags.moreData + "\n" + x
    decreases |xs|
  {
    if xs == [] {
      assert ([] + [x])[1..] == [];
    } else {
      assert (xs + [x])[1..] == xs[1..] + [x];
      FollowingAppend(tags, xs[1..], x);
    }
  }

  lemma {:induction false} FollowingSplit(tags: Tags, xs: seq<string>, j: nat)
    requires j <= |xs|
    ensures Following(tags, xs) == Following(tags, xs[..j]) + Following(tags, xs[j..])
    decreases j
  {
    if j == 0 {
      assert xs[..0] == [];
      assert xs[0..] == xs;
    } else {
      FollowingSplit(tags, xs[1..], j - 1);
      assert xs[1..][..j - 1] == xs[..j][1..];
      assert xs[1..][j - 1..] == xs[j..];
    }
  }

  /** Writing one more object adds its separator and its text. */
  lemma FramedAppend(tags: Tags, objs: seq<string>, x: string)
    ensures Framed(tags, objs + [x]) == Framed(tags, objs) + Separator(tags, |objs|) + x
  {
    if objs != [] {
      assert (objs + [x])[1..] == objs[1..] + [x];
      FollowingAppend(tags, objs[1..], x);
    } else {
      assert (objs + [x])[1..] == [];
    }
  }

  /** A framed run splits after any object into its prefix and what follows. */
  lemma FramedSplit(tags: Tags, objs: seq<string>, k: nat)
    requires k < |objs|
    ensures Framed(tags, objs) == Framed(tags, objs[..k + 1]) + Following(tags, objs[k + 1..])
  {
    FollowingSplit(tags, objs[1..], k);
    assert objs[..k + 1][1..] == objs[1..][..k];
    assert objs[1..][k..] == objs[k + 1..];
  }

  /**
   * The tag a reader meets right after the k-th object: more-data after
   * every object but the last, the eof tag after the last.
   */
  function FileTags(tags: Tags, n: nat): (ts: seq<string>)
    ensures |ts| == n
  {
    seq(n, i requires 0 <= i < n => if i < n - 1 then tags.moreData else tags.eof)
  }

  /**
   * In a writer's output, the first word after the k-th object (see
   * FramedSplit for where that object ends) is the tag FileTags puts there.
   */
  lemma TagAfterObject(tags: Tags, objs: seq<string>, k: nat, rest: string)
    requires TagsValid(tags)
    requires k < |objs|
    requires TrailerFits(tags, |objs|)
    requires |rest| == EOFOffset - |TrailerText(tags, |objs|)| - 1
    ensures FirstWord(Following(tags, objs[k + 1..]) + TrailerBlock(tags, |objs|, rest))
      == FileTags(tags, |objs|)[k]
  {
    var block := TrailerBlock(tags, |objs|, rest);
    var xs := objs[k + 1..];
    if xs == [] {
      assert Following(tags, xs) + block == block;
      FirstWordOfTrailer(tags, |objs|, rest);
    } else {
      FirstWordOfFollowing(tags, xs, block);
    }
  }

  /** After the last object the first word is the end-of-file tag. */
  lemma FirstWordOfTrailer(tags: Tags, n: nat, rest: string)
    requires TagsValid(tags) && TrailerFits(tags, n)
    requires |rest| == EOFOffset - |TrailerText(tags, n)| - 1
    ensures FirstWord(TrailerBlock(tags, n, rest)) == tags.eof
  {
    WordsOfTrailer(tags, n, rest);
  }

  /** Before every later object the first word is the more-data tag. */
  lemma FirstWordOfFollowing(tags: Tags, xs: seq<string>, block: string)
    requires TagsValid(tags) && xs != []
    ensures FirstWord(Following(tags, xs) + block) == tags.moreData
  {
    var after := "\n" + (xs[0] + Following(tags, xs[1..]) + block);
    assert Following(tags, xs) == tags.moreData + "\n" + xs[0] + Following(tags, xs[1..]);
    assert Following(tags, xs) + block == tags.moreData + after;
    WordsOfLeadingWord(tags.moreData, after);
  }

  // ---------------------------------------------------------------------
  // Reader state and its transitions

  /** The counters of a TextIOStreamReader. */
  datatype ReaderState = ReaderState(inputIsStdio: bool, nobjects: int, nread: int, more: bool)

  /** A file reader refuses a read once every counted object has been read. */
  predicate ReadRefused(s: ReaderState)
  {
    !s.inputIsStdio && s.nread >= s.nobjects
  }

  /** The guard as written: it refuses one object earlier. */
  predicate ReadRefusedAsWritten(s: ReaderState)
  {
    !s.inputIsStdio && s.nread >= s.nobjects - 1
  }

  /**
   * One read: the guard, the archive extraction (decoded), the count and
   * the tag that follows the object.  Every failure becomes one message.
   */
  function ReadStep(tags: Tags, s: ReaderState, decoded: bool, tag: string): (r: Result<ReaderState>)
    ensures r.Ok? <==> !ReadRefused(s) && decoded
    ensures r.Err? ==> r == Throw(ReadFailedMessage)
    ensures r.Ok? ==> r.value.inputIsStdio == s.inputIsStdio && r.value.nobjects == s.nobjects
    ensures r.Ok? ==> r.value.nread == s.nread + 1 && (r.value.more <==> tag == tags.moreData)
  {
    if ReadRefused(s) || !decoded then Throw(ReadFailedMessage)
    else Ok(s.(nread := s.nread + 1, more := tag == tags.moreData))
  }

  /** eof(): no more data for stdin, every counted object read for a file. */
  predicate Eof(s: ReaderState)
  {
    if s.inputIsStdio then !s.more else s.nread >= s.nobjects
  }

  /** good() as its documentation describes it. */
  predicate Good(s: ReaderState)
  {
    s.nread < s.nobjects
  }

  /** For a file reader, good() and eof() are complements. */
  lemma GoodIsNotEof(s: ReaderState)
    requires !s.inputIsStdio
    ensures Good(s) <==> !Eof(s)
  {
  }

  /** Successive successful extractions, each followed by the tag in ts. */
  function Reads(tags: Tags, s: ReaderState, ts: seq<string>): Result<ReaderState>
  {
    if ts == [] then Ok(s)
    else
      match Reads(tags, s, ts[..|ts| - 1])
      case Err(f) => Err(f)
      case Ok(s1) => ReadStep(tags, s1, true, ts[|ts| - 1])
  }

  /** A file reader just opened on n objects. */
  function Opened(n: int, more0: bool): ReaderState
  {
    ReaderState(false, n, 0, more0)
  }

  /**
   * Reading a file of n objects: every one of the n reads succeeds, the
   * flag follows the tags, and eof() holds after the n-th read and not
   * before it.
   */
  lemma {:induction false} ReadsWholeFile(tags: Tags, n: nat, more0: bool, k: nat)
    requires TagsValid(tags)
    requires k <= n
    ensures Reads(tags, Opened(n, more0), FileTags(tags, n)[..k])
      == Ok(ReaderState(false, n, k, if k == 0 then more0 else k < n))
    ensures Eof(ReaderState(false, n, k, if k == 0 then more0 else k < n)) <==> k == n
  {
    if k > 0 {
      var ts := FileTags(tags, n)[..k];
      assert ts[..k - 1] == FileTags(tags, n)[..k - 1];
      ReadsWholeFile(tags, n, more0, k - 1);
      assert ts[k - 1] == (if k - 1 < n - 1 then tags.moreData else tags.eof);
    }
  }

  /**
   * As written, the reader refuses the last object of a file: after n - 1
   * successful reads eof() is still false, yet the guard throws.
   */
  lemma LastObjectRefusedAsWritten(tags: Tags, n: nat, more0: bool)
    requires TagsValid(tags)
    requires n >= 1
    ensures Reads(tags, Opened(n, more0), FileTags(tags, n)[..n - 1]).Ok?
    ensures var s := Reads(tags, Opened(n, more0), FileTags(tags, n)[..n - 1]).value;
      !Eof(s) && ReadRefusedAsWritten(s) && !ReadRefused(s)
  {
    ReadsWholeFile(tags, n, more0, n - 1);
  }

  /** A stdin reader never refuses: eof() after a read depends on the tag alone. */
  lemma StdinEofFollowsTag(tags: Tags, s: ReaderState, tag: string)
    requires s.inputIsStdio
    ensures ReadStep(tags, s, true, tag).Ok?
    ensures Eof(ReadStep(tags, s, true, tag).value) <==> tag != tags.moreData
  {
  }

  // ---------------------------------------------------------------------
  // The reader

  class TextIOStreamReader {
    const tags: Tags
    var inputIsStdio: bool
    var parentFilename: string
    var nobjects: int
    var nPreviouslyRead: int
    var moreDataAvailable: bool

    function Value(): ReaderState
      reads this
    {
      ReaderState(inputIsStdio, nobjects, nPreviouslyRead, moreDataAvailable)
    }

    /**
     * The stdin reader: one object at most is counted.  The source leaves
     * more_data_available uninitialised; more0 stands for that value.
     */
    constructor Stdin(tags: Tags, more0: bool)
      ensures this.tags == tags && parentFilename == "STDIN"
      ensures Value() == ReaderState(true, 1, 0, more0)
    {
      this.tags := tags;
      inputIsStdio := true;
      nobjects := 1;
      parentFilename := "STDIN";
      nPreviouslyRead := 0;
      moreDataAvailable := more0;
    }

    constructor Init(tags: Tags, fname: string, n: int, more0: bool)
      ensures this.tags == tags && parentFilename == fname
      ensures Value() == Opened(n, more0)
    {
      this.tags := tags;
      parentFilename := fname;
      inputIsStdio := false;
      nPreviouslyRead := 0;
      nobjects := n;
      moreDataAvailable := more0;
    }

    /**
     * The file constructor: canOpen says whether the file opens, file is
     * its content.  The trailer is read from the last 64 bytes.
     */
    static method Open(tags: Tags, fname: string, canOpen: bool, file: string, more0: bool)
      returns (r: Result<TextIOStreamReader>)
      ensures OpenedCount(tags, fname, canOpen, file).Err? ==>
        r == Err(OpenedCount(tags, fname, canOpen, file).failure)
      ensures OpenedCount(tags, fname, canOpen, file).Ok? ==>
        (r.Ok? && fresh(r.value) && r.value.tags == tags && r.value.parentFilename == fname
        && r.value.Value() == Opened(OpenedCount(tags, fname, canOpen, file).value, more0))
    {
      if !canOpen {
        return Throw(CannotOpenMessage(fname));
      }
      var pos := |file| - EOFOffset;
      var rest := if 0 <= pos <= |file| then file[pos..] else "";
      var ws := Words(rest);
      var magicTest := if ws == [] then "" else ws[0];
      if magicTest != tags.eof {
        return Throw(InvalidFileMessage(fname));
      }
      var count := if |ws| < 2 then 0 else ParseLong(ws[1]);
      assert OpenedCount(tags, fname, canOpen, file) == Ok(count);
      var reader := new TextIOStreamReader.Init(tags, fname, count, more0);
      var _ := reader.Rewind();
      r := Ok(reader);
    }

    /**
     * read<T>(): archived is what the archive extracts (None when it
     * throws) and tag is the word that follows the object.
     */
    method Read<T>(archived: Option<T>, tag: string) returns (r: Result<T>)
      modifies this
      ensures ReadStep(tags, old(Value()), archived.Some?, tag).Ok? ==>
        (r == Ok(archived.value) && Value() == ReadStep(tags, old(Value()), archived.Some?, tag).value)
      ensures ReadStep(tags, old(Value()), archived.Some?, tag).Err? ==>
        (r == Throw(ReadFailedMessage) && Value() == old(Value()))
      ensures parentFilename == old(parentFilename)
    {
      if !inputIsStdio && nPreviouslyRead >= nobjects {
        return Throw(ReadFailedMessage);
      }
      if archived.None? {
        return Throw(ReadFailedMessage);
      }
      nPreviouslyRead := nPreviouslyRead + 1;
      if tag == tags.moreData {
        moreDataAvailable := true;
      } else if tag == tags.eof {
        moreDataAvailable := false;
      } else {
        moreDataAvailable := false;
      }
      r := Ok(archived.value);
    }

    function IsEof(): (b: bool)
      reads this
      ensures b == Eof(Value())
    {
      if inputIsStdio then !moreDataAvailable else nPreviouslyRead >= nobjects
    }

    /** rewind(): impossible on stdin; a file goes back to its start and keeps its counters. */
    method Rewind() returns (r: Result<()>)
      ensures r.Err? <==> inputIsStdio
      ensures r.Err? ==> r == Throw(RewindMessage)
    {
      if inputIsStdio {
        return Throw(RewindMessage);
      }
      r := Ok(());
    }

    function NumberAvailable(): (n: int)
      reads this
      ensures n == Value().nobjects
    {
      nobjects
    }

    function NumberAlreadyRead(): (n: int)
      reads this
      ensures n == Value().nread
    {
      nPreviouslyRead
    }
  }

  // ---------------------------------------------------------------------
  // The writer

  class TextIOStreamWriter {
    const tags: Tags
    var outputIsStdio: bool
    var parentFilename: string
    var nobjects: int
    /** Everything written to the output stream so far. */
    var out: string
    /** The objects written so far. */
    ghost var written: seq<string>

    /** The output is the framed run of the objects written, and nobjects counts them. */
    ghost predicate Valid()
      reads this
    {
      nobjects == |written| && out == Framed(tags, written)
    }

    constructor Stdout(tags: Tags)
      ensures this.tags == tags && outputIsStdio && parentFilename == "STDIN"
      ensures nobjects == 0 && written == [] && Valid()
    {
      this.tags := tags;
      outputIsStdio := true;
      nobjects := 0;
      parentFilename := "STDIN";
      out := "";
      written := [];
    }

    constructor Init(tags: Tags, fname: string)
      ensures this.tags == tags && !outputIsStdio && parentFilename == fname
      ensures nobjects == 0 && written == [] && Valid()
    {
      this.tags := tags;
      outputIsStdio := false;
      nobjects := 0;
      parentFilename := fname;
      out := "";
      written := [];
    }

    /** The file constructor; canOpen says whether the file opens for output. */
    static method Open(tags: Tags, fname: string, canOpen: bool) returns (r: Result<TextIOStreamWriter>)
      ensures !canOpen ==> r == Throw(WriterOpenMessage(fname))
      ensures canOpen ==> (r.Ok? && fresh(r.value) && r.value.tags == tags
        && r.value.parentFilename == fname && !r.value.outputIsStdio
        && r.value.nobjects == 0 && r.value.written == [] && r.value.Valid())
    {
      if !canOpen {
        return Throw(WriterOpenMessage(fname));
      }
      var w := new TextIOStreamWriter.Init(tags, fname);
      r := Ok(w);
    }

    /**
     * write<T>(d): archived is the archive's text for d, None when the
     * archive throws.  The tag line goes out before the archive is asked,
     * so a failed write still leaves it behind.
     */
    method Write(archived: Option<string>) returns (r: Result<()>)
      modifies this
      ensures archived.Some? ==> (r.Ok? && nobjects == old(nobjects) + 1
        && out == old(out) + Separator(tags, old(nobjects)) + archived.value
        && written == old(written) + [archived.value])
      ensures archived.None? ==> (r == Throw(WriteFailedMessage) && nobjects == old(nobjects)
        && out == old(out) + Separator(tags, old(nobjects)) && written == old(written))
      ensures old(Valid()) && archived.Some? ==> Valid()
      ensures outputIsStdio == old(outputIsStdio) && parentFilename == old(parentFilename)
    {
      out := out + Separator(tags, nobjects);
      if archived.None? {
        return Throw(WriteFailedMessage);
      }
      out := out + archived.value;
      written := written + [archived.value];
      nobjects := nobjects + 1;
      FramedAppend(tags, old(written), archived.value);
      r := Ok(());
    }

    /**
     * The destructor: the 64-byte trailer, whose unformatted remainder is
     * `rest`.  A count whose text does not fit the buffer overruns it.
     */
    method Close(rest: string)
      modifies this
      requires TrailerFits(tags, nobjects)
      requires |rest| == EOFOffset - |TrailerText(tags, nobjects)| - 1
      ensures nobjects == old(nobjects) && written == old(written)
      ensures out == old(out) + TrailerBlock(tags, nobjects, rest)
    {
      var buf := TrailerText(tags, nobjects) + [0 as char] + rest;
      var i := 0;
      while i < EOFOffset
        invariant 0 <= i <= EOFOffset
        invariant out == old(out) + buf[..i]
        invariant nobjects == old(nobjects) && written == old(written)
      {
        out := out + [buf[i]];
        i := i + 1;
      }
      assert buf[..EOFOffset] == buf;
    }

    function NumberAlreadyWritten(): (n: int)
      reads this
      ensures Valid() ==> n == |written|
    {
      nobjects
    }
  }

  /**
   * Whatever a valid writer wrote, closing it leaves a file whose trailer
   * reads back as the number of objects written.
   */
  lemma WrittenFileReadsBack(tags: Tags, fname: string, objs: seq<string>, rest: string)
    requires TagsValid(tags)
    requires TrailerFits(tags, |objs|)
    requires |rest| == EOFOffset - |TrailerText(tags, |objs|)| - 1
    ensures OpenedCount(tags, fname, true, Framed(tags, objs) + TrailerBlock(tags, |objs|, rest))
      == Ok(|objs|)
  {
    TrailerRoundTrip(tags, fname, Framed(tags, objs), |objs|, rest);
  }

  // ---------------------------------------------------------------------
  // Legacy wrappers

  /** read_object: whatever the archive throws becomes one SeisppError. */
  function ReadObject<T>(archived: Option<T>): (r: Result<T>)
    ensures r.Ok? <==> archived.Some?
    ensures r.Ok? ==> r.value == archived.value
    ensures r.Err? ==> r == Throw(ReadObjectMessage)
  {
    match archived
    case Some(d) => Ok(d)
    case None => Throw(ReadObjectMessage)
  }

  /** write_object: the archive's text for d, or one SeisppError. */
  function WriteObject(archived: Option<string>): (r: Result<string>)
    ensures r.Ok? <==> archived.Some?
    ensures r.Ok? ==> r.value == archived.value
    ensures r.Err? ==> r == Throw(WriteObjectMessage)
  {
    match archived
    case Some(text) => Ok(text)
    case None => Throw(WriteObjectMessage)
  }
}

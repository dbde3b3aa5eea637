/**
 * Whitespace-separated words, as `stream >> token` extracts them from text,
 * and the output token stream the writers emit with operator<<.
 */
module TextTokens {
  /** The characters isspace() accepts in the C locale. */
  predicate IsSpace(c: char)
  {
    c == ' ' || c == '\t' || c == '\n' || c == '\r' || c == 11 as char || c == 12 as char
  }

  predicate IsWord(w: string)
  {
    |w| > 0 && forall k :: 0 <= k < |w| ==> !IsSpace(w[k])
  }

  /** Length of the leading run of non-space characters. */
  function WordLength(s: string): (n: nat)
    ensures n <= |s|
    ensures forall k :: 0 <= k < n ==> !IsSpace(s[k])
    ensures n < |s| ==> IsSpace(s[n])
  {
    if s == [] || IsSpace(s[0]) then 0 else 1 + WordLength(s[1..])
  }

  /** The successive tokens `stream >> token` extracts from s. */
  function Words(s: string): (ws: seq<string>)
    ensures forall k :: 0 <= k < |ws| ==> IsWord(ws[k])
    decreases |s|
  {
    if s == [] then []
    else if IsSpace(s[0]) then Words(s[1..])
    else
      var n := WordLength(s);
      [s[..n]] + Words(s[n..])
  }

  /** Words written one after another, each followed by a single blank. */
  function Spaced(ws: seq<string>): string
  {
    if ws == [] then [] else ws[0] + " " + Spaced(ws[1..])
  }

  lemma {:induction false} WordLengthOfWord(w: string, rest: string)
    requires IsWord(w)
    requires rest == [] || IsSpace(rest[0])
    ensures WordLength(w + rest) == |w|
    decreases |w|
  {
    if |w| == 1 {
      assert (w + rest)[1..] == rest;
    } else {
      assert (w + rest)[1..] == w[1..] + rest;
      WordLengthOfWord(w[1..], rest);
    }
  }

  /** Reading back the words of a blank-separated line gives the words written. */
  lemma {:induction false} WordsOfSpaced(ws: seq<string>, tail: string)
    requires forall k :: 0 <= k < |ws| ==> IsWord(ws[k])
    requires forall k :: 0 <= k < |tail| ==> IsSpace(tail[k])
    ensures Words(Spaced(ws) + tail) == ws
    decreases |ws|
  {
    if ws == [] {
      assert Spaced(ws) + tail == tail;
      WordsOfBlanks(tail);
    } else {
      var w := ws[0];
      var after := Spaced(ws[1..]) + tail;
      SpacedFirst(ws, tail);
      WordsAfterWord(w, " " + after);
      assert (" " + after)[1..] == after;
      WordsOfSpaced(ws[1..], tail);
      assert ws == [w] + ws[1..];
    }
  }

  lemma SpacedFirst(ws: seq<string>, tail: string)
    requires |ws| > 0
    ensures Spaced(ws) + tail == ws[0] + (" " + (Spaced(ws[1..]) + tail))
  {
  }

  /** A word followed by a blank is read as that word, and reading goes on after the blank. */
  lemma WordsAfterWord(w: string, rest: string)
    requires IsWord(w) && |rest| > 0 && IsSpace(rest[0])
    ensures Words(w + rest) == [w] + Words(rest[1..])
  {
    WordLengthOfWord(w, rest);
    assert (w + rest)[..|w|] == w;
    assert (w + rest)[|w|..] == rest;
  }

  /** A line of blank-separated words, with nothing after the last blank, reads back as those words. */
  lemma WordsOfLine(ws: seq<string>)
    requires forall k :: 0 <= k < |ws| ==> IsWord(ws[k])
    ensures Words(Spaced(ws)) == ws
  {
    WordsOfSpaced(ws, []);
    assert Spaced(ws) + [] == Spaced(ws);
  }

  lemma {:induction false} WordsOfBlanks(s: string)
    requires forall k :: 0 <= k < |s| ==> IsSpace(s[k])
    ensures Words(s) == []
    decreases |s|
  {
    if s != [] {
      WordsOfBlanks(s[1..]);
    }
  }

  /** An item of a text stream written with operator<<. */
  datatype Token =
    | Text(s: string)
    | Int(n: int)
    | Real(r: real)
    | Endl
}

/**
 * sort1: read every 3C seismogram of the input and write them back sorted on
 * one metadata key, an int (-i) or a string.  Each seismogram whose key is
 * found is inserted into a std::multimap from key to input position; a
 * multimap inserts a new entry after the entries with an equal key, so the
 * sort is stable.  A seismogram without the key is reported and left out of
 * the output.  Reading and writing the boost archives is not modelled: the
 * input is the sequence of seismograms read, the output the sequence written.
 */
module Sort1 {
  import opened Failures
  import opened MetadataMaps
  import opened Seismograms

  /** The multimap key: the int or the string value of the sort key. */
  datatype SortKey = IntKey(i: int) | StrKey(s: string)

  /** std::string operator<: character by character, a proper prefix first. */
  predicate StrLess(a: string, b: string)
    decreases |a|
  {
    if |a| == 0 then |b| > 0
    else if |b| == 0 then false
    else a[0] < b[0] || (a[0] == b[0] && StrLess(a[1..], b[1..]))
  }

  /**
   * The multimap order.  One run sorts on keys of a single kind; the order
   * between an int and a string key only makes the relation total.
   */
  predicate KeyLess(a: SortKey, b: SortKey)
  {
    if a.IntKey? && b.IntKey? then a.i < b.i
    else if a.StrKey? && b.StrKey? then StrLess(a.s, b.s)
    else a.IntKey? && b.StrKey?
  }

  lemma {:induction false} StrLessAsymmetric(a: string, b: string)
    ensures StrLess(a, b) ==> !StrLess(b, a)
    decreases |a|
  {
    if |a| > 0 && |b| > 0 && a[0] == b[0] {
      StrLessAsymmetric(a[1..], b[1..]);
    }
  }

  lemma {:induction false} StrLessTransitive(a: string, b: string, c: string)
    ensures StrLess(a, b) && StrLess(b, c) ==> StrLess(a, c)
    decreases |a|
  {
    if |a| > 0 && |b| > 0 && |c| > 0 && a[0] == b[0] == c[0] {
      StrLessTransitive(a[1..], b[1..], c[1..]);
    }
  }

  lemma {:induction false} StrLessTotal(a: string, b: string)
    ensures a == b || StrLess(a, b) || StrLess(b, a)
    decreases |a|
  {
    if |a| > 0 && |b| > 0 && a[0] == b[0] {
      StrLessTotal(a[1..], b[1..]);
      if a[1..] == b[1..] {
        assert a == [a[0]] + a[1..] && b == [b[0]] + b[1..];
      }
    }
  }

  /** KeyLess is a strict total order, as a multimap's comparator must be. */
  lemma KeyLessStrictTotalOrder(a: SortKey, b: SortKey, c: SortKey)
    ensures KeyLess(a, b) ==> !KeyLess(b, a)
    ensures KeyLess(a, b) && KeyLess(b, c) ==> KeyLess(a, c)
    ensures a == b || KeyLess(a, b) || KeyLess(b, a)
  {
    if a.StrKey? && b.StrKey? {
      StrLessAsymmetric(a.s, b.s);
      StrLessTotal(a.s, b.s);
      if c.StrKey? {
        StrLessTransitive(a.s, b.s, c.s);
      }
    }
  }

  /** get_int or get_string of the key; None where that get throws. */
  function KeyOf(md: Attributes, key: string, keyIsInt: bool): (r: Option<SortKey>)
    ensures r.Some? <==> key in md && (if keyIsInt then md[key].IntValue? else md[key].StringValue?)
    ensures r.Some? && keyIsInt ==> r.value.IntKey? && md[key] == IntValue(r.value.i)
    ensures r.Some? && !keyIsInt ==> r.value.StrKey? && md[key] == StringValue(r.value.s)
  {
    if keyIsInt then
      var g := GetInt(md, key);
      if g.Ok? then Some(IntKey(g.value)) else None
    else
      var g := GetString(md, key);
      if g.Ok? then Some(StrKey(g.value)) else None
  }

  /** The sort key of every input seismogram, None where it is missing. */
  function SortKeys(ds: seq<Seis3C>, key: string, keyIsInt: bool): (keys: seq<Option<SortKey>>)
    ensures |keys| == |ds|
    ensures forall j :: 0 <= j < |ds| ==> keys[j] == KeyOf(ds[j].md, key, keyIsInt)
  {
    seq(|ds|, j requires 0 <= j < |ds| => KeyOf(ds[j].md, key, keyIsInt))
  }

  /** The input positions that have a key, in input order. */
  function KeyedIndices(keys: seq<Option<SortKey>>): seq<nat>
  {
    if keys == [] then []
    else KeyedIndices(keys[..|keys| - 1]) + (if keys[|keys| - 1].Some? then [|keys| - 1] else [])
  }

  /** Every position with a key is among the KeyedIndices once, and no other number is. */
  lemma {:induction false} KeyedIndicesCount(keys: seq<Option<SortKey>>, j: int)
    ensures multiset(KeyedIndices(keys))[j] == if 0 <= j < |keys| && keys[j].Some? then 1 else 0
    decreases |keys|
  {
    if keys != [] {
      var n := |keys| - 1;
      KeyedIndicesCount(keys[..n], j);
      if 0 <= j < n {
        assert keys[..n][j] == keys[j];
      }
    }
  }

  /** A multimap entry: the key and the input position of the seismogram. */
  type Entry = (SortKey, nat)

  /** Entry a comes out of the multimap before entry b. */
  predicate Before(a: Entry, b: Entry)
  {
    KeyLess(a.0, b.0) || (a.0 == b.0 && a.1 < b.1)
  }

  /** The multimap entry of input position j. */
  function EntryAt(keys: seq<Option<SortKey>>, j: nat): Entry
    requires j < |keys| && keys[j].Some?
  {
    (keys[j].value, j)
  }

  /**
   * The order a stable sort on the keys writes: positions with a key, each
   * exactly once, nondecreasing in key and in input order among equal keys.
   */
  ghost predicate IsStableSort(keys: seq<Option<SortKey>>, order: seq<nat>)
  {
    Ordered(keys, order) && multiset(order) == multiset(KeyedIndices(keys))
  }

  /** Positions with a key, pairwise ordered by Before. */
  ghost predicate Ordered(keys: seq<Option<SortKey>>, a: seq<nat>)
  {
    (forall k :: 0 <= k < |a| ==> a[k] < |keys| && keys[a[k]].Some?) &&
    (forall p, q :: 0 <= p < q < |a| ==> Before(EntryAt(keys, a[p]), EntryAt(keys, a[q])))
  }

  /** Two ordered sequences with the same elements start alike. */
  lemma SameHead(keys: seq<Option<SortKey>>, a: seq<nat>, b: seq<nat>)
    requires Ordered(keys, a) && Ordered(keys, b)
    requires multiset(a) == multiset(b) && a != []
    ensures b != [] && a[0] == b[0]
  {
    assert a[0] in multiset(b);
    var m :| 0 <= m < |b| && b[m] == a[0];
    assert b[0] in multiset(a);
    var n :| 0 <= n < |a| && a[n] == b[0];
    if a[0] != b[0] {
      var ea, eb := EntryAt(keys, a[0]), EntryAt(keys, b[0]);
      assert Before(eb, ea);
      assert Before(ea, eb);
      KeyLessStrictTotalOrder(ea.0, eb.0, ea.0);
      assert false;
    }
  }

  /** Dropping the first position keeps a sequence ordered. */
  lemma OrderedTail(keys: seq<Option<SortKey>>, a: seq<nat>)
    requires Ordered(keys, a) && a != []
    ensures Ordered(keys, a[1..]) && multiset(a[1..]) == multiset(a) - multiset{a[0]}
  {
    assert a == [a[0]] + a[1..];
  }

  /** Pairwise ordered sequences with the same elements are equal. */
  lemma {:induction false} OrderedSequencesUnique(keys: seq<Option<SortKey>>, a: seq<nat>, b: seq<nat>)
    requires Ordered(keys, a) && Ordered(keys, b)
    requires multiset(a) == multiset(b)
    ensures a == b
    decreases |a|
  {
    if a == [] {
      assert |multiset(b)| == 0;
    } else {
      SameHead(keys, a, b);
      OrderedTail(keys, a);
      OrderedTail(keys, b);
      OrderedSequencesUnique(keys, a[1..], b[1..]);
      assert a == [a[0]] + a[1..] && b == [b[0]] + b[1..];
    }
  }

  /** Exactly one order is a stable sort of given keys. */
  lemma StableSortUnique(keys: seq<Option<SortKey>>, a: seq<nat>, b: seq<nat>)
    requires IsStableSort(keys, a) && IsStableSort(keys, b)
    ensures a == b
  {
    OrderedSequencesUnique(keys, a, b);
  }

  /** A stable sort writes every seismogram with the key exactly once and no other. */
  lemma StableSortCounts(keys: seq<Option<SortKey>>, order: seq<nat>, j: int)
    requires IsStableSort(keys, order)
    ensures multiset(order)[j] == if 0 <= j < |keys| && keys[j].Some? then 1 else 0
  {
    KeyedIndicesCount(keys, j);
  }

  /** The keys a stable sort writes never decrease. */
  lemma StableSortNondecreasing(keys: seq<Option<SortKey>>, order: seq<nat>, p: int, q: int)
    requires IsStableSort(keys, order) && 0 <= p < q < |order|
    ensures !KeyLess(keys[order[q]].value, keys[order[p]].value)
  {
    assert Before(EntryAt(keys, order[p]), EntryAt(keys, order[q]));
    KeyLessStrictTotalOrder(keys[order[p]].value, keys[order[q]].value, keys[order[p]].value);
  }

  /** The positions of a sequence of multimap entries. */
  function Positions(xref: seq<Entry>): (r: seq<nat>)
    ensures |r| == |xref| && forall k :: 0 <= k < |xref| ==> r[k] == xref[k].1
  {
    seq(|xref|, k requires 0 <= k < |xref| => xref[k].1)
  }

  /** The multimap after the first i seismograms were offered to it. */
  ghost predicate XrefHolds(keys: seq<Option<SortKey>>, xref: seq<Entry>, i: nat)
    requires i <= |keys|
  {
    (forall k :: 0 <= k < |xref| ==> xref[k].1 < i && keys[xref[k].1] == Some(xref[k].0)) &&
    (forall p, q :: 0 <= p < q < |xref| ==> Before(xref[p], xref[q])) &&
    multiset(Positions(xref)) == multiset(KeyedIndices(keys[..i]))
  }

  /** multimap::insert: the first position whose key is above k, after every equal key. */
  method UpperBound(xref: seq<Entry>, k: SortKey) returns (p: nat)
    requires forall a, b :: 0 <= a < b < |xref| ==> Before(xref[a], xref[b])
    ensures p <= |xref|
    ensures forall q :: 0 <= q < p ==> !KeyLess(k, xref[q].0)
    ensures forall q :: p <= q < |xref| ==> KeyLess(k, xref[q].0)
  {
    p := 0;
    while p < |xref| && !KeyLess(k, xref[p].0)
      invariant p <= |xref|
      invariant forall q :: 0 <= q < p ==> !KeyLess(k, xref[q].0)
    {
      p := p + 1;
    }
    forall q | p <= q < |xref|
      ensures KeyLess(k, xref[q].0)
    {
      if q > p {
        assert Before(xref[p], xref[q]);
        KeyLessStrictTotalOrder(k, xref[p].0, xref[q].0);
      }
    }
  }

  /** Inserting the entry of position i at its upper bound keeps the multimap ordered. */
  lemma InsertKeepsOrder(xref: seq<Entry>, p: nat, e: Entry)
    requires p <= |xref|
    requires forall a, b :: 0 <= a < b < |xref| ==> Before(xref[a], xref[b])
    requires forall q :: 0 <= q < |xref| ==> xref[q].1 < e.1
    requires forall q :: 0 <= q < p ==> !KeyLess(e.0, xref[q].0)
    requires forall q :: p <= q < |xref| ==> KeyLess(e.0, xref[q].0)
    ensures var r := xref[..p] + [e] + xref[p..];
      forall a, b :: 0 <= a < b < |r| ==> Before(r[a], r[b])
  {
    var r := xref[..p] + [e] + xref[p..];
    forall a, b | 0 <= a < b < |r|
      ensures Before(r[a], r[b])
    {
      if b < p {
        assert r[a] == xref[a] && r[b] == xref[b];
      } else if a > p {
        assert r[a] == xref[a - 1] && r[b] == xref[b - 1];
      } else if a == p {
        assert r[a] == e && r[b] == xref[b - 1];
      } else if b == p {
        assert r[a] == xref[a] && r[b] == e;
        KeyLessStrictTotalOrder(e.0, xref[a].0, e.0);
      } else {
        assert r[a] == xref[a] && r[b] == xref[b - 1];
      }
    }
  }

  /** One seismogram offered to the multimap. */
  lemma XrefStep(keys: seq<Option<SortKey>>, xref: seq<Entry>, i: nat, p: nat)
    requires i < |keys| && XrefHolds(keys, xref, i)
    requires keys[i].Some? && p <= |xref|
    requires forall q :: 0 <= q < p ==> !KeyLess(keys[i].value, xref[q].0)
    requires forall q :: p <= q < |xref| ==> KeyLess(keys[i].value, xref[q].0)
    ensures XrefHolds(keys, xref[..p] + [(keys[i].value, i)] + xref[p..], i + 1)
  {
    var e := (keys[i].value, i);
    var r := xref[..p] + [e] + xref[p..];
    InsertKeepsOrder(xref, p, e);
    PositionsInsert(xref, p, e);
    assert keys[..i + 1][..i] == keys[..i];
    assert KeyedIndices(keys[..i + 1]) == KeyedIndices(keys[..i]) + [i];
    forall k | 0 <= k < |r|
      ensures r[k].1 < i + 1 && keys[r[k].1] == Some(r[k].0)
    {
      if k < p {
        assert r[k] == xref[k];
      } else if k > p {
        assert r[k] == xref[k - 1];
      }
    }
  }

  /** The positions after an insertion are the old ones and the new one. */
  lemma PositionsInsert(xref: seq<Entry>, p: nat, e: Entry)
    requires p <= |xref|
    ensures multiset(Positions(xref[..p] + [e] + xref[p..])) == multiset(Positions(xref)) + multiset{e.1}
  {
    var a, b := xref[..p], xref[p..];
    assert xref == a + b;
    PositionsConcat(a + [e], b);
    PositionsConcat(a, [e]);
    PositionsConcat(a, b);
    assert Positions([e]) == [e.1];
    assert multiset(Positions(a) + [e.1] + Positions(b)) == multiset(Positions(a)) + multiset{e.1} + multiset(Positions(b));
  }

  lemma PositionsConcat(a: seq<Entry>, b: seq<Entry>)
    ensures Positions(a + b) == Positions(a) + Positions(b)
  {
    assert forall k :: 0 <= k < |a| + |b| ==> Positions(a + b)[k] == (Positions(a) + Positions(b))[k];
  }

  /** A seismogram without the key leaves the multimap as it is. */
  lemma XrefSkip(keys: seq<Option<SortKey>>, xref: seq<Entry>, i: nat)
    requires i < |keys| && XrefHolds(keys, xref, i)
    requires keys[i].None?
    ensures XrefHolds(keys, xref, i + 1)
  {
    assert keys[..i + 1][..i] == keys[..i];
  }

  /**
   * int_metadata_sort and string_metadata_sort: the positions of the
   * seismograms with the key, stably sorted on it.
   */
  method MetadataSort(ds: seq<Seis3C>, key: string, keyIsInt: bool) returns (order: seq<nat>)
    ensures IsStableSort(SortKeys(ds, key, keyIsInt), order)
  {
    ghost var keys := SortKeys(ds, key, keyIsInt);
    var xref: seq<Entry> := [];
    var i := 0;
    while i < |ds|
      invariant 0 <= i <= |ds|
      invariant XrefHolds(keys, xref, i)
    {
      var k := KeyOf(ds[i].md, key, keyIsInt);
      if k.Some? {
        var p := UpperBound(xref, k.value);
        XrefStep(keys, xref, i, p);
        xref := xref[..p] + [(k.value, i)] + xref[p..];
      } else {
        XrefSkip(keys, xref, i);
      }
      i := i + 1;
    }
    assert keys[..i] == keys;
    order := [];
    var m := 0;
    while m < |xref|
      invariant 0 <= m <= |xref|
      invariant order == Positions(xref)[..m]
    {
      order := order + [xref[m].1];
      m := m + 1;
    }
    assert order == Positions(xref);
  }

  /** The command line after the program name: the key, then optional flags. */
  predicate ArgumentsValid(args: seq<string>)
  {
    |args| >= 1 && forall k :: 1 <= k < |args| ==> args[k] == "-i"
  }

  /**
   * main: parse the arguments (usage() exits with -1), sort the seismograms
   * read and write them in the sorted order.
   */
  method SortProgram(ds: seq<Seis3C>, args: seq<string>) returns (r: Result<seq<Seis3C>>)
    ensures r.Ok? <==> ArgumentsValid(args)
    ensures r.Err? ==> r.failure == Exited(-1)
    ensures r.Ok? ==> exists order :: (IsStableSort(SortKeys(ds, args[0], |args| > 1), order) &&
      |r.value| == |order| && forall k :: 0 <= k < |order| ==> r.value[k] == ds[order[k]])
  {
    if |args| < 1 {
      return Exit(-1);
    }
    var key := args[0];
    var keyIsInt := false;
    var i := 1;
    while i < |args|
      invariant 1 <= i <= |args|
      invariant forall k :: 1 <= k < i ==> args[k] == "-i"
      invariant keyIsInt <==> i > 1
    {
      if args[i] == "-i" {
        keyIsInt := true;
      } else {
        return Exit(-1);
      }
      i := i + 1;
    }
    var order := MetadataSort(ds, key, keyIsInt);
    var out: seq<Seis3C> := [];
    var k := 0;
    while k < |order|
      invariant 0 <= k <= |order|
      invariant |out| == k && forall m :: 0 <= m < k ==> out[m] == ds[order[m]]
    {
      out := out + [ds[order[k]]];
      k := k + 1;
    }
    r := Ok(out);
  }
}

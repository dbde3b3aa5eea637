/**
 * std::sort on a vector<double>, as the bootstrap uses it: the vector is
 * rearranged in place into ascending order.  The functional insertion sort
 * SortedCopy is its specification; sorted permutations are unique, so any
 * in-place ascending sort produces exactly SortedCopy of its input.
 */
module Sorting {
  predicate Ascending(s: seq<real>)
  {
    forall p, q :: 0 <= p < q < |s| ==> s[p] <= s[q]
  }

  /** Insert x into an ascending sequence after every element not above it. */
  function Insert(s: seq<real>, x: real): (r: seq<real>)
    requires Ascending(s)
    ensures Ascending(r)
    ensures multiset(r) == multiset(s) + multiset{x}
  {
    if s == [] then [x]
    else if x < s[0] then [x] + s
    else
      var rest := Insert(s[1..], x);
      assert s == [s[0]] + s[1..];
      BelowAll(s[0], s[1..], x, rest);
      [s[0]] + rest
  }

  /** A lower bound of s and of x bounds every element of a rearrangement of s + [x]. */
  lemma BelowAll(h: real, s: seq<real>, x: real, r: seq<real>)
    requires forall k :: 0 <= k < |s| ==> h <= s[k]
    requires h <= x
    requires multiset(r) == multiset(s) + multiset{x}
    ensures forall k :: 0 <= k < |r| ==> h <= r[k]
  {
    forall k | 0 <= k < |r|
      ensures h <= r[k]
    {
      assert r[k] in multiset(r);
      if r[k] != x {
        assert r[k] in multiset(s);
      }
    }
  }

  /** The ascending rearrangement of s. */
  function SortedCopy(s: seq<real>): (r: seq<real>)
    ensures Ascending(r)
    ensures multiset(r) == multiset(s)
    ensures |r| == |s|
  {
    if s == [] then []
    else
      assert s == s[..|s| - 1] + [s[|s| - 1]];
      var r := Insert(SortedCopy(s[..|s| - 1]), s[|s| - 1]);
      assert |r| == |multiset(r)| == |multiset(s)| == |s|;
      r
  }

  lemma {:induction false} HeadIsMinimum(s: seq<real>, v: real)
    requires Ascending(s) && v in multiset(s)
    ensures |s| > 0 && s[0] <= v
  {
    var k :| 0 <= k < |s| && s[k] == v;
  }

  lemma TailMultiset(a: seq<real>)
    requires |a| > 0
    ensures multiset(a[1..]) == multiset(a) - multiset{a[0]}
  {
    assert a == [a[0]] + a[1..];
  }

  /** Two ascending sequences with the same elements are equal. */
  lemma {:induction false} AscendingPermutationUnique(a: seq<real>, b: seq<real>)
    requires Ascending(a) && Ascending(b)
    requires multiset(a) == multiset(b)
    ensures a == b
    decreases |a|
  {
    if a == [] {
      assert |multiset(b)| == 0;
    } else {
      SameHead(a, b);
      TailMultiset(a);
      TailMultiset(b);
      AscendingTail(a);
      AscendingTail(b);
      AscendingPermutationUnique(a[1..], b[1..]);
      assert a == [a[0]] + a[1..];
      assert b == [b[0]] + b[1..];
    }
  }

  /** Two ascending arrangements of the same non-empty multiset start with its least element. */
  lemma SameHead(a: seq<real>, b: seq<real>)
    requires Ascending(a) && Ascending(b) && |a| > 0
    requires multiset(a) == multiset(b)
    ensures |b| > 0 && a[0] == b[0]
  {
    assert a[0] in multiset(a);
    HeadIsMinimum(b, a[0]);
    assert b[0] in multiset(b);
    HeadIsMinimum(a, b[0]);
  }

  lemma AscendingTail(a: seq<real>)
    requires Ascending(a) && |a| > 0
    ensures Ascending(a[1..])
  {
  }

  /** Insertion sort in place, by adjacent swaps. */
  method SortInPlace(a: array<real>)
    modifies a
    ensures Ascending(a[..])
    ensures multiset(a[..]) == multiset(old(a[..]))
  {
    var i := 0;
    while i < a.Length
      invariant 0 <= i <= a.Length
      invariant Ascending(a[..i])
      invariant multiset(a[..]) == multiset(old(a[..]))
    {
      Sink(a, i);
      i := i + 1;
    }
    assert a[..] == a[..a.Length];
  }

  /** Moves a[i] left past every larger element of the ascending prefix a[..i]. */
  method Sink(a: array<real>, i: int)
    requires 0 <= i < a.Length
    requires Ascending(a[..i])
    modifies a
    ensures Ascending(a[..i + 1])
    ensures multiset(a[..]) == multiset(old(a[..]))
  {
    var j := i;
    while j > 0 && a[j - 1] > a[j]
      invariant 0 <= j <= i
      invariant forall p, q :: 0 <= p < q <= i && q != j ==> a[p] <= a[q]
      invariant forall q :: j < q <= i ==> a[j] <= a[q]
      invariant 0 < j < i ==> a[j - 1] <= a[j + 1]
      invariant multiset(a[..]) == multiset(old(a[..]))
      decreases j
    {
      SwapDown(a, j);
      j := j - 1;
    }
  }

  /** Exchanges a[j - 1] and a[j]. */
  method SwapDown(a: array<real>, j: int)
    requires 0 < j < a.Length
    modifies a
    ensures a[j - 1] == old(a[j]) && a[j] == old(a[j - 1])
    ensures forall k :: 0 <= k < a.Length && k != j - 1 && k != j ==> a[k] == old(a[k])
    ensures multiset(a[..]) == multiset(old(a[..]))
  {
    a[j - 1], a[j] := a[j], a[j - 1];
  }

  /** std::sort(work.begin(), work.end()): the array ends holding SortedCopy of its contents. */
  method Sort(a: array<real>)
    modifies a
    ensures a[..] == SortedCopy(old(a[..]))
  {
    ghost var before := a[..];
    SortInPlace(a);
    SortInPlaceIsSortedCopy(before, a[..]);
  }

  /** After the in-place sort the array holds SortedCopy of its old contents. */
  lemma SortInPlaceIsSortedCopy(before: seq<real>, after: seq<real>)
    requires Ascending(after) && multiset(after) == multiset(before)
    ensures after == SortedCopy(before)
  {
    AscendingPermutationUnique(after, SortedCopy(before));
  }
}

/**
 * Sorting of a note's log-pitch buffer, and the upper median the note
 * segmenter reports. The segmenter sorts its buffer in place
 * (`std::sort`); `SortInPlace` is that step, and `Sort` is an independent
 * reference definition that the in-place result is proved equal to.
 */
module Sorting {

  predicate IsSorted(s: seq<real>)
  {
    forall i, j :: 0 <= i < j < |s| ==> s[i] <= s[j]
  }

  /** Inserts `x` into a sequence before the first element not below it. */
  function Insert(x: real, s: seq<real>): (r: seq<real>)
    ensures |r| == |s| + 1
  {
    if s == [] || x <= s[0] then [x] + s
    else [s[0]] + Insert(x, s[1..])
  }

  /** Inserting adds exactly `x` to the elements. */
  lemma {:induction false} InsertPermutes(x: real, s: seq<real>)
    ensures multiset(Insert(x, s)) == multiset(s) + multiset{x}
  {
    if s != [] && x > s[0] {
      InsertPermutes(x, s[1..]);
      assert s == [s[0]] + s[1..];
    }
  }

  /** Inserting into a sorted sequence keeps it sorted. */
  lemma {:induction false} InsertKeepsSorted(x: real, s: seq<real>)
    requires IsSorted(s)
    ensures IsSorted(Insert(x, s))
  {
    if s != [] && x > s[0] {
      var rest := Insert(x, s[1..]);
      InsertKeepsSorted(x, s[1..]);
      InsertPermutes(x, s[1..]);
      assert s == [s[0]] + s[1..];
      forall k | 0 <= k < |rest| ensures s[0] <= rest[k] {
        assert rest[k] in multiset(rest);
        if rest[k] != x {
          assert rest[k] in multiset(s[1..]);
          HeadIsLeast(s, rest[k]);
        }
      }
    }
  }

  /** The first element of a sorted sequence is at most every element. */
  lemma HeadIsLeast(s: seq<real>, x: real)
    requires IsSorted(s) && x in s
    ensures s[0] <= x
  {
  }

  /** Reference sort (insertion sort on values). */
  function Sort(s: seq<real>): (r: seq<real>)
    ensures |r| == |s|
  {
    if s == [] then [] else Insert(s[0], Sort(s[1..]))
  }

  /** The reference sort orders the elements and keeps exactly the same ones. */
  lemma {:induction false} SortIsSortedPermutation(s: seq<real>)
    ensures IsSorted(Sort(s))
    ensures multiset(Sort(s)) == multiset(s)
  {
    if s != [] {
      SortIsSortedPermutation(s[1..]);
      InsertKeepsSorted(s[0], Sort(s[1..]));
      InsertPermutes(s[0], Sort(s[1..]));
      assert s == [s[0]] + s[1..];
    }
  }

  /** The smallest element of a non-empty sequence. */
  function SeqMin(s: seq<real>): real
    requires |s| > 0
  {
    if |s| == 1 then s[0]
    else if s[0] <= SeqMin(s[1..]) then s[0] else SeqMin(s[1..])
  }

  /** The largest element of a non-empty sequence. */
  function SeqMax(s: seq<real>): real
    requires |s| > 0
  {
    if |s| == 1 then s[0]
    else if s[0] >= SeqMax(s[1..]) then s[0] else SeqMax(s[1..])
  }

  lemma {:induction false} MinMaxBound(s: seq<real>, x: real)
    requires x in s
    ensures SeqMin(s) <= x <= SeqMax(s)
  {
    if |s| > 1 && x != s[0] {
      assert x in s[1..];
      MinMaxBound(s[1..], x);
    }
  }

  /** Two sorted sequences holding the same values are equal. */
  lemma {:induction false} SortedPermutationUnique(a: seq<real>, b: seq<real>)
    requires IsSorted(a) && IsSorted(b)
    requires multiset(a) == multiset(b)
    ensures a == b
  {
    if a == [] {
      assert |multiset(b)| == 0;
    } else if b == [] {
      assert false;
    } else {
      assert a[0] in multiset(b);
      HeadIsLeast(b, a[0]);
      assert b[0] in multiset(a);
      HeadIsLeast(a, b[0]);
      var a', b' := a[1..], b[1..];
      assert a == [a[0]] + a';
      assert b == [b[0]] + b';
      assert multiset(a') == multiset(b') by {
        assert a[0] == b[0];
        assert multiset(a) == multiset{a[0]} + multiset(a');
        assert multiset(b) == multiset{b[0]} + multiset(b');
        assert multiset(a') == multiset(a) - multiset{a[0]};
        assert multiset(b') == multiset(b) - multiset{b[0]};
      }
      assert IsSorted(a') && IsSorted(b');
      SortedPermutationUnique(a', b');
    }
  }

  /** The element at position size/2 of the sorted buffer: the upper median. */
  function UpperMedian(s: seq<real>): real
    requires |s| > 0
  {
    Sort(s)[|s| / 2]
  }

  /** The upper median is one of the buffer's values, so it lies between its minimum and maximum. */
  lemma UpperMedianInRange(s: seq<real>)
    requires |s| > 0
    ensures UpperMedian(s) in s
    ensures SeqMin(s) <= UpperMedian(s) <= SeqMax(s)
  {
    var t := Sort(s);
    SortIsSortedPermutation(s);
    assert t[|s| / 2] in multiset(t);
    assert UpperMedian(s) in multiset(s);
    MinMaxBound(s, UpperMedian(s));
  }

  /** Exchanging two positions keeps the elements of a sequence. */
  lemma SwapKeepsMultiset(s: seq<real>, t: seq<real>, p: int, q: int)
    requires 0 <= p < q < |s| == |t|
    requires t[p] == s[q] && t[q] == s[p]
    requires forall k :: 0 <= k < |s| && k != p && k != q ==> t[k] == s[k]
    ensures multiset(t) == multiset(s)
  {
    assert t == s[..p] + [s[q]] + s[p + 1..q] + [s[p]] + s[q + 1..];
    assert s == s[..p] + [s[p]] + s[p + 1..q] + [s[q]] + s[q + 1..];
  }

  /** The first `i` elements are in order. */
  predicate SortedPrefix(s: seq<real>, i: int)
  {
    forall k, l :: 0 <= k < l < i && l < |s| ==> s[k] <= s[l]
  }

  /** No element of the first `i` exceeds any element after them. */
  predicate PrefixBelowRest(s: seq<real>, i: int)
  {
    forall k, l :: 0 <= k < i <= l < |s| ==> s[k] <= s[l]
  }

  /** The position of a least element of `a[i..]`. */
  method IndexOfLeast(a: array<real>, i: int) returns (m: int)
    requires 0 <= i < a.Length
    ensures i <= m < a.Length
    ensures forall l :: i <= l < a.Length ==> a[m] <= a[l]
  {
    m := i;
    var j := i + 1;
    while j < a.Length
      invariant i <= m < a.Length && i + 1 <= j <= a.Length
      invariant forall l :: i <= l < j ==> a[m] <= a[l]
    {
      if a[j] < a[m] {
        m := j;
      }
      j := j + 1;
    }
  }

  /**
   * One round of selection sort: swapping a least element of `s[i..]` into
   * position `i` extends the sorted prefix by one and keeps the elements.
   */
  lemma SelectionStep(s: seq<real>, t: seq<real>, i: int, m: int)
    requires SortedPrefix(s, i) && PrefixBelowRest(s, i)
    requires 0 <= i <= m < |s|
    requires forall l :: i <= l < |s| ==> s[m] <= s[l]
    requires t == s[i := s[m]][m := s[i]]
    ensures SortedPrefix(t, i + 1) && PrefixBelowRest(t, i + 1)
    ensures multiset(t) == multiset(s)
  {
    if m != i {
      SwapKeepsMultiset(s, t, i, m);
    } else {
      assert t == s;
    }
  }

  /**
   * In-place selection sort: each round swaps the least remaining element
   * into place. The result is sorted and a permutation of the input, hence
   * equal to the reference `Sort`.
   */
  method SortInPlace(a: array<real>)
    modifies a
    ensures a[..] == Sort(old(a[..]))
  {
    var i := 0;
    while i < a.Length
      invariant 0 <= i <= a.Length
      invariant SortedPrefix(a[..], i) && PrefixBelowRest(a[..], i)
      invariant multiset(a[..]) == old(multiset(a[..]))
    {
      var m := IndexOfLeast(a, i);
      ghost var before := a[..];
      a[i], a[m] := a[m], a[i];
      SelectionStep(before, a[..], i, m);
      i := i + 1;
    }
    assert IsSorted(a[..]);
    SortIsSortedPermutation(old(a[..]));
    SortedPermutationUnique(a[..], Sort(old(a[..])));
  }
}

/**
  The array primitives the source builds on (`findIndex`, `find`, `filter`,
  `splice(i, 1)`), on immutable sequences, with the facts about them that the
  storage layer and the static lookup helpers rely on.
 */
module Seqs {
  import opened Common

  /** `xs.findIndex(p)`: the first index satisfying `p`, or -1. */
  function FindIndex<T>(xs: seq<T>, p: T -> bool): (r: int)
    ensures -1 <= r < |xs|
    ensures r == -1 <==> forall j :: 0 <= j < |xs| ==> !p(xs[j])
    ensures r >= 0 ==> p(xs[r]) && forall j :: 0 <= j < r ==> !p(xs[j])
    decreases |xs|
  {
    if |xs| == 0 then -1
    else if p(xs[0]) then 0
    else
      var k := FindIndex(xs[1..], p);
      if k == -1 then -1 else k + 1
  }

  /** `xs.find(p)`: the first element satisfying `p`, or `undefined`. */
  function Find<T>(xs: seq<T>, p: T -> bool): (r: Option<T>)
    ensures r.None? <==> forall j :: 0 <= j < |xs| ==> !p(xs[j])
    ensures r.Some? ==> exists i :: 0 <= i < |xs| && xs[i] == r.value && p(xs[i]) && forall j :: 0 <= j < i ==> !p(xs[j])
  {
    var i := FindIndex(xs, p);
    if i == -1 then None else Some(xs[i])
  }

  /** `xs.filter(p)`. */
  function Filter<T>(xs: seq<T>, p: T -> bool): (r: seq<T>)
    ensures |r| <= |xs|
    ensures forall i :: 0 <= i < |r| ==> p(r[i])
    decreases |xs|
  {
    if |xs| == 0 then []
    else (if p(xs[0]) then [xs[0]] else []) + Filter(xs[1..], p)
  }

  /** `a` is `b` with some elements left out, the rest kept in order. */
  predicate IsSubsequence<T(==)>(a: seq<T>, b: seq<T>)
    decreases |b|
  {
    |a| == 0 || (|b| > 0 && ((a[0] == b[0] && IsSubsequence(a[1..], b[1..])) || IsSubsequence(a, b[1..])))
  }

  /** `xs.splice(i, 1)`: the sequence without its `i`-th element. */
  function RemoveAt<T>(xs: seq<T>, i: nat): (r: seq<T>)
    requires i < |xs|
    ensures |r| == |xs| - 1
    ensures forall j :: 0 <= j < i ==> r[j] == xs[j]
    ensures forall j :: i <= j < |r| ==> r[j] == xs[j + 1]
  {
    xs[..i] + xs[i + 1..]
  }

  /** No value occurs twice. */
  predicate Unique<T(==)>(xs: seq<T>)
  {
    forall i, j :: 0 <= i < j < |xs| ==> xs[i] != xs[j]
  }

  lemma {:induction false} SubsequenceOfSelf<T>(xs: seq<T>)
    ensures IsSubsequence(xs, xs)
    decreases |xs|
  {
    if |xs| > 0 {
      SubsequenceOfSelf(xs[1..]);
    }
  }

  /** Everything a filter keeps comes from the input, in the input's order. */
  lemma {:induction false} FilterIsSubsequence<T>(xs: seq<T>, p: T -> bool)
    ensures IsSubsequence(Filter(xs, p), xs)
    decreases |xs|
  {
    if |xs| > 0 {
      FilterIsSubsequence(xs[1..], p);
      var rest := Filter(xs[1..], p);
      if p(xs[0]) {
        assert Filter(xs, p) == [xs[0]] + rest;
        assert ([xs[0]] + rest)[1..] == rest;
      } else {
        assert Filter(xs, p) == rest;
      }
    }
  }

  /** A filter keeps every occurrence of a value `p` accepts and none of the others. */
  lemma {:induction false} FilterCount<T>(xs: seq<T>, p: T -> bool, x: T)
    ensures multiset(Filter(xs, p))[x] == if p(x) then multiset(xs)[x] else 0
    decreases |xs|
  {
    if |xs| > 0 {
      FilterCount(xs[1..], p, x);
      assert xs == [xs[0]] + xs[1..];
      assert multiset(xs) == multiset([xs[0]]) + multiset(xs[1..]);
      var head := if p(xs[0]) then [xs[0]] else [];
      assert multiset(Filter(xs, p)) == multiset(head) + multiset(Filter(xs[1..], p));
    }
  }

  /** An element is kept exactly when it occurs in the input and `p` accepts it. */
  lemma FilterMembership<T>(xs: seq<T>, p: T -> bool, x: T)
    ensures x in Filter(xs, p) <==> x in xs && p(x)
  {
    FilterCount(xs, p, x);
    assert x in Filter(xs, p) <==> multiset(Filter(xs, p))[x] > 0;
    assert x in xs <==> multiset(xs)[x] > 0;
  }

  /** A filter that accepts everything is the identity. */
  lemma {:induction false} FilterAll<T>(xs: seq<T>, p: T -> bool)
    requires forall i :: 0 <= i < |xs| ==> p(xs[i])
    ensures Filter(xs, p) == xs
    decreases |xs|
  {
    if |xs| > 0 {
      FilterAll(xs[1..], p);
      assert xs == [xs[0]] + xs[1..];
    }
  }

  /** Filtering distributes over concatenation. */
  lemma {:induction false} FilterConcat<T>(a: seq<T>, b: seq<T>, p: T -> bool)
    ensures Filter(a + b, p) == Filter(a, p) + Filter(b, p)
    decreases |a|
  {
    if |a| == 0 {
      assert a + b == b;
    } else {
      var head := if p(a[0]) then [a[0]] else [];
      assert (a + b)[0] == a[0] && (a + b)[1..] == a[1..] + b;
      assert Filter(a + b, p) == head + Filter(a[1..] + b, p);
      FilterConcat(a[1..], b, p);
      assert Filter(a, p) + Filter(b, p) == head + (Filter(a[1..], p) + Filter(b, p));
    }
  }

  /** A filter that keeps exactly the positions `lo` to `hi` leaves that run. */
  lemma KeepRun<T>(xs: seq<T>, p: T -> bool, lo: nat, hi: nat)
    requires lo <= hi <= |xs|
    requires forall i :: 0 <= i < |xs| ==> (p(xs[i]) <==> lo <= i < hi)
    ensures Filter(xs, p) == xs[lo..hi]
  {
    SplitThree(xs, lo, hi);
    FilterThree(xs[0..lo], xs[lo..hi], xs[hi..|xs|], p);
    FilterSlice(xs, p, 0, lo, false);
    FilterSlice(xs, p, lo, hi, true);
    FilterSlice(xs, p, hi, |xs|, false);
  }

  lemma FilterSlice<T>(xs: seq<T>, p: T -> bool, lo: nat, hi: nat, keep: bool)
    requires lo <= hi <= |xs|
    requires forall i :: lo <= i < hi ==> p(xs[i]) == keep
    ensures Filter(xs[lo..hi], p) == if keep then xs[lo..hi] else []
  {
    var b := xs[lo..hi];
    forall i | 0 <= i < |b| ensures p(b[i]) == keep {
      assert b[i] == xs[lo + i];
    }
    if keep {
      FilterAll(b, p);
    } else {
      FilterNone(b, p);
    }
  }

  lemma SplitThree<T>(xs: seq<T>, lo: nat, hi: nat)
    requires lo <= hi <= |xs|
    ensures xs == xs[0..lo] + xs[lo..hi] + xs[hi..|xs|]
  {
  }

  lemma FilterThree<T>(a: seq<T>, b: seq<T>, c: seq<T>, p: T -> bool)
    ensures Filter(a + b + c, p) == Filter(a, p) + Filter(b, p) + Filter(c, p)
  {
    FilterConcat(a + b, c, p);
    FilterConcat(a, b, p);
  }

  /** A filter that accepts nothing in `xs` is empty. */
  lemma {:induction false} FilterNone<T>(xs: seq<T>, p: T -> bool)
    requires forall i :: 0 <= i < |xs| ==> !p(xs[i])
    ensures Filter(xs, p) == []
    decreases |xs|
  {
    if |xs| > 0 {
      FilterNone(xs[1..], p);
    }
  }

  /** Filters that agree on every element of `xs` give the same result. */
  lemma {:induction false} FilterCongruent<T>(xs: seq<T>, p: T -> bool, q: T -> bool)
    requires forall i :: 0 <= i < |xs| ==> p(xs[i]) == q(xs[i])
    ensures Filter(xs, p) == Filter(xs, q)
    decreases |xs|
  {
    if |xs| > 0 {
      FilterCongruent(xs[1..], p, q);
    }
  }

  /** Removing one element keeps the others in order. */
  lemma {:induction false} RemoveAtIsSubsequence<T>(xs: seq<T>, i: nat)
    requires i < |xs|
    ensures IsSubsequence(RemoveAt(xs, i), xs)
    decreases i
  {
    if i == 0 {
      assert RemoveAt(xs, 0) == xs[1..];
      SubsequenceOfSelf(xs[1..]);
      if |xs| > 1 {
        assert RemoveAt(xs, 0)[0] != xs[0] || RemoveAt(xs, 0)[0] == xs[0];
      }
    } else {
      RemoveAtIsSubsequence(xs[1..], i - 1);
      assert RemoveAt(xs, i)[1..] == RemoveAt(xs[1..], i - 1);
    }
  }

  /**
    When `keep` rejects exactly one element, removing that element is the same
    as filtering with `keep`.
   */
  lemma {:induction false} RemoveOnlyRejectedIsFilter<T>(xs: seq<T>, keep: T -> bool, i: nat)
    requires i < |xs| && !keep(xs[i])
    requires forall j :: 0 <= j < |xs| && j != i ==> keep(xs[j])
    ensures RemoveAt(xs, i) == Filter(xs, keep)
    decreases |xs|
  {
    if i == 0 {
      FilterAll(xs[1..], keep);
    } else {
      RemoveOnlyRejectedIsFilter(xs[1..], keep, i - 1);
      assert RemoveAt(xs, i) == [xs[0]] + RemoveAt(xs[1..], i - 1);
    }
  }

  lemma UniquePrefix<T>(a: seq<T>, b: seq<T>)
    requires Unique(a + b)
    ensures Unique(a) && Unique(b)
    ensures forall i, j :: 0 <= i < |a| && 0 <= j < |b| ==> a[i] != b[j]
  {
    forall i, j | 0 <= i < |a| && 0 <= j < |b|
      ensures a[i] != b[j]
    {
      assert (a + b)[i] == a[i] && (a + b)[|a| + j] == b[j];
    }
    forall i, j | 0 <= i < j < |a|
      ensures a[i] != a[j]
    {
      assert (a + b)[i] == a[i] && (a + b)[j] == a[j];
    }
    forall i, j | 0 <= i < j < |b|
      ensures b[i] != b[j]
    {
      assert (a + b)[|a| + i] == b[i] && (a + b)[|a| + j] == b[j];
    }
  }

  lemma UniqueJoin<T>(a: seq<T>, b: seq<T>)
    requires Unique(a) && Unique(b)
    requires forall i, j :: 0 <= i < |a| && 0 <= j < |b| ==> a[i] != b[j]
    ensures Unique(a + b)
  {
    forall i, j | 0 <= i < j < |a + b|
      ensures (a + b)[i] != (a + b)[j]
    {
      if j < |a| {
      } else if i < |a| {
        assert (a + b)[j] == b[j - |a|];
      } else {
        assert (a + b)[i] == b[i - |a|] && (a + b)[j] == b[j - |a|];
      }
    }
  }

  /** Removing an element keeps the others distinct. */
  lemma UniqueRemoveAt<T>(xs: seq<T>, i: nat)
    requires i < |xs| && Unique(xs)
    ensures Unique(RemoveAt(xs, i))
    ensures forall x :: x in RemoveAt(xs, i) ==> x in xs
    ensures xs[i] !in RemoveAt(xs, i)
  {
    var r := RemoveAt(xs, i);
    forall a, b | 0 <= a < b < |r|
      ensures r[a] != r[b]
    {
      var a', b' := if a < i then a else a + 1, if b < i then b else b + 1;
      assert r[a] == xs[a'] && r[b] == xs[b'];
    }
    forall x | x in r
      ensures x in xs
    {
      var k :| 0 <= k < |r| && r[k] == x;
      assert x == xs[if k < i then k else k + 1];
    }
    forall k | 0 <= k < |r|
      ensures r[k] != xs[i]
    {
      assert r[k] == xs[if k < i then k else k + 1];
    }
  }

  /** Removing from the front part of a concatenation. */
  lemma RemoveAtConcat<T>(a: seq<T>, b: seq<T>, i: nat)
    requires i < |a|
    ensures RemoveAt(a + b, i) == RemoveAt(a, i) + b
  {
  }

  /** A value that does not occur yet can be placed anywhere without breaking distinctness. */
  lemma UniqueInsert<T>(a: seq<T>, b: seq<T>, x: T)
    requires Unique(a + b) && x !in a + b
    ensures Unique(a + [x] + b)
  {
    var r := a + [x] + b;
    forall i, j | 0 <= i < j < |r|
      ensures r[i] != r[j]
    {
      if i == |a| {
        assert r[j] == (a + b)[j - 1];
      } else if j == |a| {
        assert r[i] == (a + b)[i];
      } else {
        var i', j' := if i < |a| then i else i - 1, if j < |a| then j else j - 1;
        assert r[i] == (a + b)[i'] && r[j] == (a + b)[j'];
      }
    }
  }
}

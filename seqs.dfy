/** The array operations the source leans on: `filter`, `findIndex`/`find`
    and the order-preserving subsequence relation that `filter` establishes. */
module Seqs {

  /** `s.filter(keep)`. */
  function Filter<T>(s: seq<T>, keep: T -> bool): (r: seq<T>)
    ensures |r| <= |s|
    ensures forall i :: 0 <= i < |r| ==> keep(r[i])
    ensures forall i :: 0 <= i < |s| && keep(s[i]) ==> s[i] in r
    ensures forall x :: x in r ==> x in s
    decreases |s|
  {
    if s == [] then []
    else (if keep(s[0]) then [s[0]] else []) + Filter(s[1..], keep)
  }

  /** `r` is `s` with some elements dropped, the rest in their original order. */
  predicate SubsequenceOf<T(==)>(r: seq<T>, s: seq<T>)
    decreases |s|
  {
    if r == [] then true
    else if s == [] then false
    else (r[0] == s[0] && SubsequenceOf(r[1..], s[1..])) || SubsequenceOf(r, s[1..])
  }

  lemma {:induction false} FilterIsSubsequence<T>(s: seq<T>, keep: T -> bool)
    ensures SubsequenceOf(Filter(s, keep), s)
    decreases |s|
  {
    if s != [] {
      FilterIsSubsequence(s[1..], keep);
      if keep(s[0]) {
        assert Filter(s, keep)[1..] == Filter(s[1..], keep);
      } else {
        assert Filter(s, keep) == Filter(s[1..], keep);
      }
    }
  }

  /** Filtering keeps an element iff it was there and passes the test;
      the number of copies of each kept element is unchanged. */
  lemma {:induction false} FilterMultiset<T>(s: seq<T>, keep: T -> bool, x: T)
    ensures multiset(Filter(s, keep))[x] == if keep(x) then multiset(s)[x] else 0
    decreases |s|
  {
    if s != [] {
      FilterMultiset(s[1..], keep, x);
      assert s == [s[0]] + s[1..];
    }
  }

  /** Filtering leaves `s` unchanged iff every element passes. */
  lemma {:induction false} FilterUnchanged<T>(s: seq<T>, keep: T -> bool)
    ensures Filter(s, keep) == s <==> forall i :: 0 <= i < |s| ==> keep(s[i])
    decreases |s|
  {
    if s != [] {
      FilterUnchanged(s[1..], keep);
      if !keep(s[0]) {
        assert |Filter(s, keep)| < |s|;
      }
    }
  }

  /** Filtering shortens `s` iff some element fails the test. */
  lemma FilterShrinks<T>(s: seq<T>, keep: T -> bool)
    ensures |Filter(s, keep)| < |s| <==> exists i :: 0 <= i < |s| && !keep(s[i])
  {
    FilterUnchanged(s, keep);
    if |Filter(s, keep)| == |s| {
      FilterLengthEq(s, keep);
    }
  }

  lemma {:induction false} FilterLengthEq<T>(s: seq<T>, keep: T -> bool)
    requires |Filter(s, keep)| == |s|
    ensures Filter(s, keep) == s
    decreases |s|
  {
    if s != [] {
      FilterLengthEq(s[1..], keep);
    }
  }

  /** Filtering twice by the same test is filtering once. */
  lemma FilterIdempotent<T>(s: seq<T>, keep: T -> bool)
    ensures Filter(Filter(s, keep), keep) == Filter(s, keep)
  {
    FilterUnchanged(Filter(s, keep), keep);
  }

  /** `filter` distributes over appending one element (a `forEach` step). */
  lemma {:induction false} FilterSnoc<T>(s: seq<T>, x: T, keep: T -> bool)
    ensures Filter(s + [x], keep) == Filter(s, keep) + (if keep(x) then [x] else [])
    decreases |s|
  {
    if s != [] {
      FilterSnoc(s[1..], x, keep);
      assert (s + [x])[1..] == s[1..] + [x];
    }
  }

  /** Replacing one element changes the length of the filtered sequence by
      what the old and the new element contribute. */
  lemma {:induction false} FilterUpdateLength<T>(s: seq<T>, i: int, x: T, keep: T -> bool)
    requires 0 <= i < |s|
    ensures |Filter(s[i := x], keep)| ==
      |Filter(s, keep)| - (if keep(s[i]) then 1 else 0) + (if keep(x) then 1 else 0)
    decreases |s|
  {
    var t := s[i := x];
    if i == 0 {
      assert t[1..] == s[1..];
    } else {
      FilterUpdateLength(s[1..], i - 1, x, keep);
      assert t[1..] == s[1..][i - 1 := x];
    }
  }

  /** Two tests that split every element between them split the count. */
  lemma {:induction false} FilterPartition<T>(s: seq<T>, p: T -> bool, q: T -> bool)
    requires forall i :: 0 <= i < |s| ==> p(s[i]) != q(s[i])
    ensures |Filter(s, p)| + |Filter(s, q)| == |s|
    decreases |s|
  {
    if s != [] {
      FilterPartition(s[1..], p, q);
    }
  }

  /** `s.findIndex(p)`: the first index whose element passes, or -1. */
  function FindIndex<T>(s: seq<T>, p: T -> bool): (i: int)
    ensures -1 <= i < |s|
    ensures 0 <= i ==> p(s[i]) && forall j :: 0 <= j < i ==> !p(s[j])
    ensures i == -1 <==> forall j :: 0 <= j < |s| ==> !p(s[j])
    decreases |s|
  {
    if s == [] then -1
    else if p(s[0]) then 0
    else
      var k := FindIndex(s[1..], p);
      if k == -1 then -1 else k + 1
  }
}

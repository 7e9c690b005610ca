/** `Array.prototype.sort` with a comparator that orders by an integer key.
    The built-in sort is stable, so its result is the stable sort of the
    input: sorted by key, a permutation of the input, and elements with equal
    keys in their original relative order. Insertion sort is used here as the
    reference definition of that result. */
module Sorting {
  import Seqs

  predicate SortedBy<T>(s: seq<T>, key: T -> int) {
    forall i, j :: 0 <= i < j < |s| ==> key(s[i]) <= key(s[j])
  }

  /** Inserts `x` before the first element whose key is not smaller. */
  function Insert<T>(x: T, s: seq<T>, key: T -> int): (r: seq<T>)
    ensures |r| == |s| + 1
    ensures multiset(r) == multiset(s) + multiset{x}
    decreases |s|
  {
    if s == [] || key(x) <= key(s[0]) then [x] + s
    else
      assert s == [s[0]] + s[1..];
      [s[0]] + Insert(x, s[1..], key)
  }

  function Sort<T>(s: seq<T>, key: T -> int): (r: seq<T>)
    ensures |r| == |s|
    ensures multiset(r) == multiset(s)
    decreases |s|
  {
    if s == [] then []
    else
      assert s == [s[0]] + s[1..];
      Insert(s[0], Sort(s[1..], key), key)
  }

  lemma {:induction false} InsertSorted<T>(x: T, s: seq<T>, key: T -> int)
    requires SortedBy(s, key)
    ensures SortedBy(Insert(x, s, key), key)
    decreases |s|
  {
    if s != [] && key(x) > key(s[0]) {
      var t := Insert(x, s[1..], key);
      InsertSorted(x, s[1..], key);
      forall k | 0 <= k < |t|
        ensures key(s[0]) <= key(t[k])
      {
        assert t[k] in multiset(t);
        assert t[k] == x || t[k] in multiset(s[1..]);
        if t[k] != x {
          var m :| 0 <= m < |s[1..]| && s[1..][m] == t[k];
          assert s[m + 1] == t[k];
        }
      }
    }
  }

  /** The stable sort is ordered by key. */
  lemma {:induction false} SortSorted<T>(s: seq<T>, key: T -> int)
    ensures SortedBy(Sort(s, key), key)
    decreases |s|
  {
    if s != [] {
      SortSorted(s[1..], key);
      InsertSorted(s[0], Sort(s[1..], key), key);
    }
  }

  /** The test "has key `k`". */
  function HasKey<T>(key: T -> int, k: int): T -> bool {
    x => key(x) == k
  }

  /** Insertion puts `x` ahead of every element with the same key. */
  lemma {:induction false} InsertStable<T>(x: T, s: seq<T>, key: T -> int, k: int)
    ensures Seqs.Filter(Insert(x, s, key), HasKey(key, k))
         == (if key(x) == k then [x] else []) + Seqs.Filter(s, HasKey(key, k))
    decreases |s|
  {
    var p := HasKey(key, k);
    if s == [] || key(x) <= key(s[0]) {
      assert ([x] + s)[1..] == s;
    } else {
      InsertStable(x, s[1..], key, k);
      assert ([s[0]] + Insert(x, s[1..], key))[1..] == Insert(x, s[1..], key);
    }
  }

  /** Stability: for every key, the elements with that key appear in the
      result in the same order as in the input. */
  lemma {:induction false} SortStable<T>(s: seq<T>, key: T -> int, k: int)
    ensures Seqs.Filter(Sort(s, key), HasKey(key, k)) == Seqs.Filter(s, HasKey(key, k))
    decreases |s|
  {
    if s != [] {
      SortStable(s[1..], key, k);
      InsertStable(s[0], Sort(s[1..], key), key, k);
    }
  }
}

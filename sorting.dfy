/**
 * The stable sort behind `Array.prototype.sort` with a numeric comparator
 * `(a, b) => key(a) - key(b)`, and behind a document store's `sort({order: 1})`
 * as this model reads it. A comparator `(a, b) => key(b) - key(a)` (descending)
 * is the ascending sort on the negated key.
 */
module Sorting {
  import opened Common

  /** `s` is non-decreasing in `key`. */
  ghost predicate SortedBy<T>(s: seq<T>, key: T -> real) {
    forall i, j :: 0 <= i < j < |s| ==> key(s[i]) <= key(s[j])
  }

  /** Insert `x` in front of the first element whose key is not smaller than its own. */
  function Insert<T>(x: T, s: seq<T>, key: T -> real): (r: seq<T>)
    requires SortedBy(s, key)
    ensures SortedBy(r, key)
    ensures multiset(r) == multiset(s) + multiset{x}
    ensures |r| == |s| + 1
    ensures r[0] == x || (|s| > 0 && r[0] == s[0])
  {
    if s == [] || key(x) <= key(s[0]) then [x] + s
    else
      var rest := Insert(x, s[1..], key);
      assert multiset(s) == multiset{s[0]} + multiset(s[1..]) by { assert s == [s[0]] + s[1..]; }
      assert key(s[0]) <= key(rest[0]);
      [s[0]] + rest
  }

  /** Stable insertion sort by `key`, ascending. */
  function SortBy<T>(s: seq<T>, key: T -> real): (r: seq<T>)
    ensures SortedBy(r, key)
    ensures multiset(r) == multiset(s)
    ensures |r| == |s|
  {
    if s == [] then []
    else
      assert s == [s[0]] + s[1..];
      Insert(s[0], SortBy(s[1..], key), key)
  }

  /** The elements of `s` whose key is exactly `k`, in order. */
  function WithKey<T>(s: seq<T>, key: T -> real, k: real): seq<T> {
    if s == [] then []
    else if key(s[0]) == k then [s[0]] + WithKey(s[1..], key, k)
    else WithKey(s[1..], key, k)
  }

  /** Inserting `x` puts it ahead of every element that has the same key. */
  lemma {:induction false} InsertWithKey<T>(x: T, s: seq<T>, key: T -> real, k: real)
    requires SortedBy(s, key)
    ensures WithKey(Insert(x, s, key), key, k)
         == if key(x) == k then [x] + WithKey(s, key, k) else WithKey(s, key, k)
  {
    if s == [] || key(x) <= key(s[0]) {
      assert Insert(x, s, key) == [x] + s;
      assert ([x] + s)[1..] == s;
    } else {
      InsertWithKey(x, s[1..], key, k);
      assert Insert(x, s, key) == [s[0]] + Insert(x, s[1..], key);
      assert ([s[0]] + Insert(x, s[1..], key))[1..] == Insert(x, s[1..], key);
      if key(x) == k {
        // s[0] has a smaller key than x, so it is not among those with key k
        assert key(s[0]) != k;
      }
    }
  }

  /** Stability: for every key value, the elements with that key keep their relative order. */
  lemma {:induction false} SortByIsStable<T>(s: seq<T>, key: T -> real, k: real)
    ensures WithKey(SortBy(s, key), key, k) == WithKey(s, key, k)
  {
    if s != [] {
      SortByIsStable(s[1..], key, k);
      InsertWithKey(s[0], SortBy(s[1..], key), key, k);
    }
  }

  /** Sorting an already sorted sequence returns it unchanged (so sorting is idempotent). */
  lemma {:induction false} SortBySorted<T>(s: seq<T>, key: T -> real)
    requires SortedBy(s, key)
    ensures SortBy(s, key) == s
  {
    if s != [] {
      assert SortedBy(s[1..], key);
      SortBySorted(s[1..], key);
    }
  }

  lemma SortByIdempotent<T>(s: seq<T>, key: T -> real)
    ensures SortBy(SortBy(s, key), key) == SortBy(s, key)
  {
    SortBySorted(SortBy(s, key), key);
  }

  /** When every key is equal the sort keeps the original order. */
  lemma SortByConstantKey<T>(s: seq<T>, key: T -> real, k: real)
    requires forall i :: 0 <= i < |s| ==> key(s[i]) == k
    ensures SortBy(s, key) == s
  {
    SortBySorted(s, key);
  }

  /** Filtering a sorted sequence leaves it sorted. */
  lemma {:induction false} FilterKeepsSorted<T>(s: seq<T>, key: T -> real, p: T -> bool)
    requires SortedBy(s, key)
    ensures SortedBy(Filter(s, p), key)
  {
    if s != [] {
      FilterKeepsSorted(s[1..], key, p);
      if p(s[0]) {
        var tail := s[1..];
        var rest := Filter(tail, p);
        var r := [s[0]] + rest;
        assert forall m :: 0 <= m < |tail| ==> key(s[0]) <= key(tail[m]) by {
          forall m | 0 <= m < |tail| ensures key(s[0]) <= key(tail[m]) {
            assert tail[m] == s[m + 1];
          }
        }
        forall i, j | 0 <= i < j < |r| ensures key(r[i]) <= key(r[j]) {
          if i == 0 {
            var m :| 0 <= m < |tail| && tail[m] == rest[j - 1];
          }
        }
      }
    }
  }
}

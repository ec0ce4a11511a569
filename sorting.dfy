/**
 * Python's `sorted(xs, key=...)` on integer keys: a stable sort, written as
 * an insertion sort so that its three defining properties can be proved.
 */
module Sorting {

  /** Keys never decrease from left to right. */
  predicate SortedBy<T>(s: seq<T>, key: T -> int) {
    forall i, j :: 0 <= i < j < |s| ==> key(s[i]) <= key(s[j])
  }

  /** The elements of `s` whose key is `v`, in their order in `s`. */
  function WithKey<T>(s: seq<T>, key: T -> int, v: int): seq<T> {
    if s == [] then [] else (if key(s[0]) == v then [s[0]] else []) + WithKey(s[1..], key, v)
  }

  /** Puts `x` before the first element whose key is not smaller than its own. */
  function InsertBy<T>(x: T, s: seq<T>, key: T -> int): (r: seq<T>)
    ensures multiset(r) == multiset(s) + multiset{x}
  {
    if s == [] || key(x) <= key(s[0]) then [x] + s
    else
      assert s == [s[0]] + s[1..];
      [s[0]] + InsertBy(x, s[1..], key)
  }

  /** `sorted(s, key=key)`. */
  function SortBy<T>(s: seq<T>, key: T -> int): (r: seq<T>)
    ensures multiset(r) == multiset(s)
  {
    if s == [] then []
    else
      assert s == [s[0]] + s[1..];
      InsertBy(s[0], SortBy(s[1..], key), key)
  }

  /** A sorted sequence stays sorted with an element in front that is not above any of it. */
  lemma SortedCons<T>(a: T, s: seq<T>, key: T -> int)
    requires SortedBy(s, key)
    requires forall i :: 0 <= i < |s| ==> key(a) <= key(s[i])
    ensures SortedBy([a] + s, key)
  {
    var r := [a] + s;
    forall i, j | 0 <= i < j < |r| ensures key(r[i]) <= key(r[j]) {
      assert r[j] == s[j - 1];
      if i > 0 {
        assert r[i] == s[i - 1];
      }
    }
  }

  /** Inserting into a sorted sequence keeps it sorted. */
  lemma {:induction false} InsertBySorted<T>(x: T, s: seq<T>, key: T -> int)
    requires SortedBy(s, key)
    ensures SortedBy(InsertBy(x, s, key), key)
  {
    if s == [] || key(x) <= key(s[0]) {
      SortedCons(x, s, key);
    } else {
      var rest := InsertBy(x, s[1..], key);
      InsertBySorted(x, s[1..], key);
      forall i | 0 <= i < |rest| ensures key(s[0]) <= key(rest[i]) {
        assert rest[i] in multiset(rest);
        if rest[i] != x {
          assert rest[i] in multiset(s[1..]);
          var j :| 0 <= j < |s[1..]| && s[1..][j] == rest[i];
          assert s[1..][j] == s[j + 1];
        }
      }
      SortedCons(s[0], rest, key);
    }
  }

  /** `sorted` yields non-decreasing keys. */
  lemma {:induction false} SortBySorted<T>(s: seq<T>, key: T -> int)
    ensures SortedBy(SortBy(s, key), key)
  {
    if s != [] {
      SortBySorted(s[1..], key);
      InsertBySorted(s[0], SortBy(s[1..], key), key);
    }
  }

  /** In a sorted sequence, an element outside a prefix has a key no smaller than any inside it. */
  lemma PrefixBelowRest<T>(xs: seq<T>, key: T -> int, n: nat, y: T)
    requires SortedBy(xs, key) && n <= |xs| && y in xs && y !in xs[..n]
    ensures forall i :: 0 <= i < n ==> key(xs[i]) <= key(y)
  {
    var j :| 0 <= j < |xs| && xs[j] == y;
    assert forall m :: 0 <= m < n ==> xs[..n][m] == xs[m];
    assert n <= j;
  }

  lemma {:induction false} InsertByStable<T>(x: T, s: seq<T>, key: T -> int, v: int)
    ensures WithKey(InsertBy(x, s, key), key, v) == (if key(x) == v then [x] else []) + WithKey(s, key, v)
  {
    var r := InsertBy(x, s, key);
    var xs: seq<T> := if key(x) == v then [x] else [];
    if s == [] || key(x) <= key(s[0]) {
      assert r == [x] + s && r[1..] == s;
      assert WithKey(r, key, v) == xs + WithKey(s, key, v);
    } else {
      var rest := InsertBy(x, s[1..], key);
      var heads: seq<T> := if key(s[0]) == v then [s[0]] else [];
      assert r == [s[0]] + rest && r[0] == s[0] && r[1..] == rest;
      assert WithKey(r, key, v) == heads + WithKey(rest, key, v);
      InsertByStable(x, s[1..], key, v);
      assert WithKey(s, key, v) == heads + WithKey(s[1..], key, v);
      assert xs == [] || heads == [];
      assert heads + (xs + WithKey(s[1..], key, v)) == xs + (heads + WithKey(s[1..], key, v));
    }
  }

  /**
   * Stability: for every key value, the elements carrying it appear in the
   * sorted sequence in the same order as in the input.
   */
  lemma {:induction false} SortByStable<T>(s: seq<T>, key: T -> int, v: int)
    ensures WithKey(SortBy(s, key), key, v) == WithKey(s, key, v)
  {
    if s != [] {
      SortByStable(s[1..], key, v);
      InsertByStable(s[0], SortBy(s[1..], key), key, v);
    }
  }
}

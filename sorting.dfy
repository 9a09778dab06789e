/**
 * `[...xs].sort((a, b) => key(b) - key(a))`: JavaScript's stable sort into
 * non-increasing key order, used for the top clients and the top services.
 */
module Sorting {

  /** Keys never increase from left to right. */
  predicate SortedDesc<T>(s: seq<T>, key: T -> int) {
    forall i, j :: 0 <= i < j < |s| ==> key(s[i]) >= key(s[j])
  }

  /** Inserts `x` in front of the first element whose key is not greater than its own. */
  function Insert<T>(x: T, s: seq<T>, key: T -> int): (r: seq<T>)
    ensures |r| == |s| + 1
  {
    if s == [] || key(s[0]) <= key(x) then [x] + s else [s[0]] + Insert(x, s[1..], key)
  }

  /** Inserting adds exactly `x`. */
  lemma {:induction false} InsertPermutes<T>(x: T, s: seq<T>, key: T -> int)
    ensures multiset(Insert(x, s, key)) == multiset(s) + multiset{x}
  {
    if !(s == [] || key(s[0]) <= key(x)) {
      InsertPermutes(x, s[1..], key);
      assert s == [s[0]] + s[1..];
    }
  }

  /** Inserting into a sorted sequence keeps it sorted. */
  lemma {:induction false} InsertSorted<T>(x: T, s: seq<T>, key: T -> int)
    requires SortedDesc(s, key)
    ensures SortedDesc(Insert(x, s, key), key)
  {
    if s == [] || key(s[0]) <= key(x) {
      var r := [x] + s;
      forall i, j | 0 <= i < j < |r| ensures key(r[i]) >= key(r[j]) {
        assert r[j] == s[j - 1];
        if i > 0 {
          assert r[i] == s[i - 1];
        }
      }
    } else {
      var tail := s[1..];
      PrefixSorted(s, key, 1, |s|);
      InsertSorted(x, tail, key);
      var rest := Insert(x, tail, key);
      InsertPermutes(x, tail, key);
      forall j | 0 <= j < |rest| ensures key(s[0]) >= key(rest[j]) {
        assert rest[j] in multiset(rest);
        if rest[j] != x {
          assert rest[j] in multiset(tail);
          var k :| 0 <= k < |tail| && tail[k] == rest[j];
          assert s[1 + k] == rest[j];
        }
      }
      var r := [s[0]] + rest;
      forall i, j | 0 <= i < j < |r| ensures key(r[i]) >= key(r[j]) {
        assert r[j] == rest[j - 1];
        if i > 0 {
          assert r[i] == rest[i - 1];
        }
      }
    }
  }

  /** A contiguous piece of a sorted sequence is sorted. */
  lemma PrefixSorted<T>(t: seq<T>, key: T -> int, lo: nat, hi: nat)
    requires SortedDesc(t, key) && lo <= hi <= |t|
    ensures SortedDesc(t[lo..hi], key)
  {
    var u := t[lo..hi];
    forall i, j | 0 <= i < j < |u| ensures key(u[i]) >= key(u[j]) {
      assert u[i] == t[lo + i] && u[j] == t[lo + j];
    }
  }

  /** Adding the head to a permutation of the tail gives a permutation of the whole. */
  lemma ConsPermutes<T>(s: seq<T>, rest: seq<T>, r: seq<T>)
    requires s != [] && multiset(rest) == multiset(s[1..])
    requires multiset(r) == multiset(rest) + multiset{s[0]}
    ensures multiset(r) == multiset(s)
  {
    assert s == [s[0]] + s[1..];
  }

  /** Insertion sort: a permutation of `s` in non-increasing key order. */
  function SortDesc<T>(s: seq<T>, key: T -> int): (r: seq<T>)
    ensures |r| == |s|
    ensures SortedDesc(r, key)
    ensures multiset(r) == multiset(s)
  {
    if s == [] then []
    else
      var rest := SortDesc(s[1..], key);
      InsertSorted(s[0], rest, key);
      var r := Insert(s[0], rest, key);
      InsertPermutes(s[0], rest, key);
      ConsPermutes(s, rest, r);
      r
  }

  /** The elements whose key is `k`, in their order: the run of ties that the sort must not reorder. */
  function WithKey<T>(s: seq<T>, key: T -> int, k: int): (r: seq<T>)
    ensures |r| <= |s|
    ensures forall i :: 0 <= i < |r| ==> key(r[i]) == k
  {
    if s == [] then []
    else
      (if key(s[0]) == k then [s[0]] else []) + WithKey(s[1..], key, k)
  }

  /** Inserting `x` puts it in front of every element of its own key, and moves nothing else of that key. */
  lemma {:induction false} InsertStable<T>(x: T, s: seq<T>, key: T -> int, k: int)
    ensures WithKey(Insert(x, s, key), key, k) == (if key(x) == k then [x] else []) + WithKey(s, key, k)
  {
    if s == [] || key(s[0]) <= key(x) {
      var r := [x] + s;
      assert r[0] == x && r[1..] == s;
      assert WithKey(r, key, k) == (if key(x) == k then [x] else []) + WithKey(s, key, k);
    } else {
      var rest := Insert(x, s[1..], key);
      var r := [s[0]] + rest;
      assert r[0] == s[0] && r[1..] == rest;
      assert WithKey(r, key, k) == (if key(s[0]) == k then [s[0]] else []) + WithKey(rest, key, k);
      InsertStable(x, s[1..], key, k);
    }
  }

  /** The sort is stable: the elements of each key come out in the order they went in. */
  lemma {:induction false} SortDescStable<T>(s: seq<T>, key: T -> int, k: int)
    ensures WithKey(SortDesc(s, key), key, k) == WithKey(s, key, k)
  {
    if s != [] {
      SortDescStable(s[1..], key, k);
      InsertStable(s[0], SortDesc(s[1..], key), key, k);
    }
  }

  /** In a sorted sequence everything before position `m` has a key at least that of everything after. */
  lemma SortedSplit<T>(t: seq<T>, key: T -> int, m: nat)
    requires SortedDesc(t, key) && m <= |t|
    ensures forall x, y :: x in t[..m] && y in t[m..] ==> key(x) >= key(y)
  {
    forall x, y | x in t[..m] && y in t[m..] ensures key(x) >= key(y) {
      var i :| 0 <= i < m && t[..m][i] == x;
      var j :| 0 <= j < |t| - m && t[m..][j] == y;
      assert t[i] == x && t[m + j] == y;
    }
  }

  /**
   * A prefix of the sorted permutation keeps the largest keys: nothing left out has a
   * greater key than anything kept.
   */
  lemma PrefixKeepsLargest<T>(s: seq<T>, key: T -> int, m: nat)
    requires m <= |s|
    ensures var sorted := SortDesc(s, key);
            forall x, y :: x in sorted[..m] && y in multiset(s) - multiset(sorted[..m]) ==> key(x) >= key(y)
  {
    var sorted := SortDesc(s, key);
    MultisetOfSuffix(sorted, m);
    SortedSplit(sorted, key, m);
    forall x, y | x in sorted[..m] && y in multiset(s) - multiset(sorted[..m])
      ensures key(x) >= key(y)
    {
      assert y in sorted[m..];
    }
  }

  /** A prefix of the sorted permutation is itself sorted and drawn from `s`. */
  lemma PrefixOfSorted<T>(s: seq<T>, key: T -> int, m: nat)
    requires m <= |s|
    ensures var sorted := SortDesc(s, key);
            && SortedDesc(sorted[..m], key)
            && multiset(sorted[..m]) <= multiset(s)
  {
    var sorted := SortDesc(s, key);
    PrefixSorted(sorted, key, 0, m);
    assert sorted[0..m] == sorted[..m];
    PrefixSubMultiset(sorted, m);
  }

  /** A prefix's multiset is contained in the sequence's. */
  lemma PrefixSubMultiset<T>(t: seq<T>, m: nat)
    requires m <= |t|
    ensures multiset(t[..m]) <= multiset(t)
  {
    assert t == t[..m] + t[m..];
    assert multiset(t) == multiset(t[..m]) + multiset(t[m..]);
  }

  /** What a prefix leaves of a sequence's multiset is the multiset of the rest. */
  lemma MultisetOfSuffix<T>(t: seq<T>, m: nat)
    requires m <= |t|
    ensures multiset(t) - multiset(t[..m]) == multiset(t[m..])
  {
    assert t == t[..m] + t[m..];
  }
}

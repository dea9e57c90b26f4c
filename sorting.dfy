/** `Array.prototype.sort` with a comparator of the form `(a, b) => key(b) - key(a)`:
    a sort into descending order of an integer key (newest first, for timestamps). */
module Sorting {

  /** Every element's key is at least the key of every later element. */
  ghost predicate SortedDesc<T>(s: seq<T>, key: T -> int) {
    forall i, j :: 0 <= i < j < |s| ==> key(s[i]) >= key(s[j])
  }

  /** Inserts `x` before the first element whose key is not larger than its own. */
  function Insert<T>(x: T, s: seq<T>, key: T -> int): (r: seq<T>)
    requires SortedDesc(s, key)
    ensures SortedDesc(r, key)
    ensures multiset(r) == multiset(s) + multiset{x}
    ensures |r| == |s| + 1
  {
    if s == [] || key(s[0]) <= key(x) then
      [x] + s
    else
      var rest := Insert(x, s[1..], key);
      HeadBoundsInserted(s, x, rest, key);
      ConsSortedDesc(s[0], rest, key);
      assert s == [s[0]] + s[1..];
      [s[0]] + rest
  }

  /** The head of a sorted list bounds everything in its tail with `x` added, when it bounds
      `x`. */
  lemma HeadBoundsInserted<T>(s: seq<T>, x: T, rest: seq<T>, key: T -> int)
    requires SortedDesc(s, key) && |s| > 0 && key(s[0]) > key(x)
    requires multiset(rest) == multiset(s[1..]) + multiset{x}
    ensures forall j :: 0 <= j < |rest| ==> key(s[0]) >= key(rest[j])
  {
    forall j | 0 <= j < |rest| ensures key(s[0]) >= key(rest[j]) {
      assert rest[j] in multiset(rest);
      if rest[j] in multiset(s[1..]) {
        var k :| 0 <= k < |s[1..]| && s[1..][k] == rest[j];
        assert s[k + 1] == rest[j];
      }
    }
  }

  /** An element whose key bounds a sorted list can go in front of it. */
  lemma ConsSortedDesc<T>(h: T, rest: seq<T>, key: T -> int)
    requires SortedDesc(rest, key)
    requires forall j :: 0 <= j < |rest| ==> key(h) >= key(rest[j])
    ensures SortedDesc([h] + rest, key)
  {
    var r := [h] + rest;
    forall i, j | 0 <= i < j < |r| ensures key(r[i]) >= key(r[j]) {
      assert r[j] == rest[j - 1];
      if i > 0 {
        assert r[i] == rest[i - 1];
      }
    }
  }

  /** The descending sort of `s` by `key`. */
  function SortDesc<T>(s: seq<T>, key: T -> int): (r: seq<T>)
    ensures SortedDesc(r, key)
    ensures multiset(r) == multiset(s)
    ensures |r| == |s|
  {
    if s == [] then
      []
    else
      assert s == [s[0]] + s[1..];
      Insert(s[0], SortDesc(s[1..], key), key)
  }

  /** A sorted result holds exactly the elements it was given, each as often. */
  lemma SortDescMembers<T>(s: seq<T>, key: T -> int, x: T)
    ensures x in SortDesc(s, key) <==> x in s
  {
    var r := SortDesc(s, key);
    assert x in r <==> x in multiset(r);
    assert x in s <==> x in multiset(s);
  }

  /** The elements of `s` whose key is `k`, in their order in `s`. */
  function WithKey<T>(s: seq<T>, key: T -> int, k: int): (r: seq<T>)
    ensures forall i :: 0 <= i < |r| ==> key(r[i]) == k
    ensures |r| <= |s|
  {
    if s == [] then []
    else (if key(s[0]) == k then [s[0]] else []) + WithKey(s[1..], key, k)
  }

  /** Inserting `x` puts it before every element with its own key and leaves the other keys'
      elements in order. */
  lemma {:induction false} InsertWithKey<T>(x: T, s: seq<T>, key: T -> int, k: int)
    requires SortedDesc(s, key)
    ensures WithKey(Insert(x, s, key), key, k) ==
      if key(x) == k then [x] + WithKey(s, key, k) else WithKey(s, key, k)
  {
    if s == [] || key(s[0]) <= key(x) {
      assert Insert(x, s, key) == [x] + s;
      WithKeyCons(x, s, key, k);
    } else {
      SortedTail(s, key);
      var rest := Insert(x, s[1..], key);
      assert Insert(x, s, key) == [s[0]] + rest;
      InsertWithKey(x, s[1..], key, k);
      WithKeyCons(s[0], rest, key, k);
      assert s == [s[0]] + s[1..];
      WithKeyCons(s[0], s[1..], key, k);
      if key(x) == k {
        assert key(s[0]) != k;
        assert WithKey(Insert(x, s, key), key, k) == WithKey(rest, key, k);
        assert WithKey(s, key, k) == WithKey(s[1..], key, k);
      }
    }
  }

  lemma WithKeyCons<T>(h: T, s: seq<T>, key: T -> int, k: int)
    ensures WithKey([h] + s, key, k) == (if key(h) == k then [h] else []) + WithKey(s, key, k)
  {
    assert ([h] + s)[1..] == s;
  }

  lemma SortedTail<T>(s: seq<T>, key: T -> int)
    requires SortedDesc(s, key) && s != []
    ensures SortedDesc(s[1..], key)
  {
    forall i, j | 0 <= i < j < |s[1..]| ensures key(s[1..][i]) >= key(s[1..][j]) {
      assert s[1..][i] == s[i + 1] && s[1..][j] == s[j + 1];
    }
  }

  /** The sort is stable: for every key, the elements with that key come out in the order
      they went in. */
  lemma {:induction false} SortDescStable<T>(s: seq<T>, key: T -> int, k: int)
    ensures WithKey(SortDesc(s, key), key, k) == WithKey(s, key, k)
  {
    if s != [] {
      SortDescStable(s[1..], key, k);
      InsertWithKey(s[0], SortDesc(s[1..], key), key, k);
    }
  }
}

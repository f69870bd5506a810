/** Python's `list.sort(key=..., reverse=True)`: a stable sort by descending
    key, equal keys keeping their original order. */
module Ranking {
  import opened Common

  predicate SortedDesc<T>(s: seq<T>, key: T -> real) {
    forall i, j :: 0 <= i < j < |s| ==> key(s[i]) >= key(s[j])
  }

  /** Places `x` in front of the first element whose key is not larger. */
  function Insert<T>(x: T, s: seq<T>, key: T -> real): (r: seq<T>)
    ensures |r| == |s| + 1
    ensures multiset(r) == multiset(s) + multiset{x}
    decreases |s|
  {
    if s == [] || key(x) >= key(s[0]) then [x] + s
    else
      assert s == [s[0]] + s[1..];
      [s[0]] + Insert(x, s[1..], key)
  }

  lemma {:induction false} InsertBounded<T>(x: T, s: seq<T>, key: T -> real, b: real)
    requires key(x) <= b
    requires forall i :: 0 <= i < |s| ==> key(s[i]) <= b
    ensures forall i :: 0 <= i < |s| + 1 ==> key(Insert(x, s, key)[i]) <= b
    decreases |s|
  {
    if s != [] && key(x) < key(s[0]) {
      var s1 := s[1..];
      assert forall i :: 0 <= i < |s1| ==> key(s1[i]) <= b by {
        forall i | 0 <= i < |s1| ensures key(s1[i]) <= b { assert s1[i] == s[i + 1]; }
      }
      InsertBounded(x, s1, key, b);
      var r := Insert(x, s, key);
      assert r == [s[0]] + Insert(x, s1, key);
      forall i | 0 <= i < |s| + 1 ensures key(r[i]) <= b {
        if i > 0 { assert r[i] == Insert(x, s1, key)[i - 1]; }
      }
    }
  }

  lemma {:induction false} InsertSorted<T>(x: T, s: seq<T>, key: T -> real)
    requires SortedDesc(s, key)
    ensures SortedDesc(Insert(x, s, key), key)
    decreases |s|
  {
    if s == [] || key(x) >= key(s[0]) {
      var r := Insert(x, s, key);
      assert r == [x] + s;
      forall i, j | 0 <= i < j < |r| ensures key(r[i]) >= key(r[j]) {
        if i > 0 { assert r[i] == s[i - 1]; }
        assert r[j] == s[j - 1];
      }
    } else {
      var s1 := s[1..];
      var rest := Insert(x, s1, key);
      assert SortedDesc(s1, key) by {
        forall i, j | 0 <= i < j < |s1| ensures key(s1[i]) >= key(s1[j]) {
          assert s1[i] == s[i + 1] && s1[j] == s[j + 1];
        }
      }
      InsertSorted(x, s1, key);
      assert forall i :: 0 <= i < |s1| ==> key(s1[i]) <= key(s[0]) by {
        forall i | 0 <= i < |s1| ensures key(s1[i]) <= key(s[0]) { assert s1[i] == s[i + 1]; }
      }
      InsertBounded(x, s1, key, key(s[0]));
      var r := [s[0]] + rest;
      assert Insert(x, s, key) == r;
      forall i, j | 0 <= i < j < |r| ensures key(r[i]) >= key(r[j]) {
        assert r[j] == rest[j - 1];
        if i > 0 { assert r[i] == rest[i - 1]; }
      }
    }
  }

  /** Insertion sort; `SortDesc(s)` is the order Python's stable
      `sort(key=key, reverse=True)` leaves `s` in. */
  function SortDesc<T>(s: seq<T>, key: T -> real): (r: seq<T>)
    ensures |r| == |s|
    ensures multiset(r) == multiset(s)
    ensures SortedDesc(r, key)
    decreases |s|
  {
    if s == [] then []
    else
      assert s == [s[0]] + s[1..];
      var rest := SortDesc(s[1..], key);
      InsertSorted(s[0], rest, key);
      Insert(s[0], rest, key)
  }

  lemma SortDescMembers<T>(s: seq<T>, key: T -> real, x: T)
    ensures x in SortDesc(s, key) <==> x in s
  {
    assert x in SortDesc(s, key) <==> x in multiset(SortDesc(s, key));
    assert x in s <==> x in multiset(s);
  }

  /** The elements of `s` with key `v`, in order. */
  function WithKey<T>(s: seq<T>, key: T -> real, v: real): seq<T>
    decreases |s|
  {
    if s == [] then []
    else (if key(s[0]) == v then [s[0]] else []) + WithKey(s[1..], key, v)
  }

  lemma {:induction false} WithKeyAppend<T>(a: seq<T>, b: seq<T>, key: T -> real, v: real)
    ensures WithKey(a + b, key, v) == WithKey(a, key, v) + WithKey(b, key, v)
    decreases |a|
  {
    if a != [] {
      assert (a + b)[0] == a[0] && (a + b)[1..] == a[1..] + b;
      WithKeyAppend(a[1..], b, key, v);
    } else {
      assert a + b == b;
    }
  }

  lemma WithKeyCons<T>(x: T, s: seq<T>, key: T -> real, v: real)
    ensures WithKey([x] + s, key, v) == (if key(x) == v then [x] else []) + WithKey(s, key, v)
  {
    assert ([x] + s)[0] == x && ([x] + s)[1..] == s;
  }

  lemma {:induction false} InsertStable<T>(x: T, s: seq<T>, key: T -> real, v: real)
    ensures WithKey(Insert(x, s, key), key, v) == WithKey([x] + s, key, v)
    decreases |s|
  {
    if s != [] && key(x) < key(s[0]) {
      var s0, s1 := s[0], s[1..];
      assert s == [s0] + s1;
      var ex := if key(x) == v then [x] else [];
      var es := if key(s0) == v then [s0] else [];
      assert Insert(x, s, key) == [s0] + Insert(x, s1, key);
      calc {
        WithKey(Insert(x, s, key), key, v);
        { WithKeyCons(s0, Insert(x, s1, key), key, v); }
        es + WithKey(Insert(x, s1, key), key, v);
        { InsertStable(x, s1, key, v); }
        es + WithKey([x] + s1, key, v);
        { WithKeyCons(x, s1, key, v); }
        es + (ex + WithKey(s1, key, v));
        { if key(x) == v { assert es == []; } else { assert ex == []; } }
        ex + (es + WithKey(s1, key, v));
        { WithKeyCons(s0, s1, key, v); }
        ex + WithKey(s, key, v);
        { WithKeyCons(x, s, key, v); }
        WithKey([x] + s, key, v);
      }
    }
  }

  /** Stability: for every key value, the elements with that key come out in
      the order they went in. */
  lemma {:induction false} SortDescStable<T>(s: seq<T>, key: T -> real, v: real)
    ensures WithKey(SortDesc(s, key), key, v) == WithKey(s, key, v)
    decreases |s|
  {
    if s != [] {
      var rest := SortDesc(s[1..], key);
      SortDescStable(s[1..], key, v);
      InsertStable(s[0], rest, key, v);
      assert ([s[0]] + rest)[0] == s[0] && ([s[0]] + rest)[1..] == rest;
    }
  }

  /** Sorting a sequence that is already in descending order changes
      nothing; in particular sorting is idempotent. */
  lemma {:induction false} SortDescSorted<T>(s: seq<T>, key: T -> real)
    requires SortedDesc(s, key)
    ensures SortDesc(s, key) == s
    decreases |s|
  {
    if s != [] {
      var s1 := s[1..];
      assert SortedDesc(s1, key) by {
        forall i, j | 0 <= i < j < |s1| ensures key(s1[i]) >= key(s1[j]) {
          assert s1[i] == s[i + 1] && s1[j] == s[j + 1];
        }
      }
      SortDescSorted(s1, key);
      assert s == [s[0]] + s1;
      if s1 != [] {
        assert s1[0] == s[1];
      }
    }
  }

  lemma SortDescIdempotent<T>(s: seq<T>, key: T -> real)
    ensures SortDesc(SortDesc(s, key), key) == SortDesc(s, key)
  {
    SortDescSorted(SortDesc(s, key), key);
  }

  /** After a descending sort, the first `k` elements dominate the rest. */
  lemma TakeDominates<T>(s: seq<T>, key: T -> real, k: int)
    requires SortedDesc(s, key)
    ensures forall i, j :: 0 <= i < |Take(s, k)| <= j < |s| ==> key(s[i]) >= key(s[j])
  {
  }

  /** A prefix of a sorted sequence is sorted. */
  lemma PrefixSorted<T>(s: seq<T>, key: T -> real, n: nat)
    requires SortedDesc(s, key) && n <= |s|
    ensures SortedDesc(s[..n], key)
  {
    forall i, j | 0 <= i < j < n ensures key(s[..n][i]) >= key(s[..n][j]) {
      assert s[..n][i] == s[i] && s[..n][j] == s[j];
    }
  }

  /** What a prefix leaves out of a sequence is the rest of it. */
  lemma PrefixSplit<T>(s: seq<T>, n: nat)
    requires n <= |s|
    ensures multiset(s[..n]) <= multiset(s)
    ensures multiset(s) - multiset(s[..n]) == multiset(s[n..])
  {
    assert s == s[..n] + s[n..];
  }

  /** In a sorted sequence, every element left out of a prefix has a key no
      larger than any element of the prefix. */
  lemma PrefixDominates<T>(s: seq<T>, key: T -> real, n: nat)
    requires SortedDesc(s, key) && n <= |s|
    ensures forall x, y :: x in multiset(s) - multiset(s[..n]) && y in s[..n] ==> key(x) <= key(y)
  {
    PrefixSplit(s, n);
    forall x, y | x in multiset(s) - multiset(s[..n]) && y in s[..n] ensures key(x) <= key(y) {
      assert x in s[n..];
      var j :| 0 <= j < |s| - n && s[n..][j] == x;
      var i :| 0 <= i < n && s[..n][i] == y;
      assert s[n + j] == x && s[i] == y;
    }
  }

  /** `top` is a choice of the best `k` of `all` (Python slice semantics for
      `k`), in descending order of key; equal keys may come in any order. */
  predicate IsTopK<T(==)>(top: seq<T>, all: seq<T>, k: int, key: T -> real) {
    SortedDesc(top, key) &&
    multiset(top) <= multiset(all) &&
    |top| == |Take(all, k)| &&
    forall x, y :: x in multiset(all) - multiset(top) && y in top ==> key(x) <= key(y)
  }

  /** The first `k` of the stable sort are one such choice. */
  lemma SortedPrefixIsTopK<T>(all: seq<T>, key: T -> real, k: int)
    ensures IsTopK(Take(SortDesc(all, key), k), all, k, key)
  {
    var sorted := SortDesc(all, key);
    var n := |Take(sorted, k)|;
    PrefixSorted(sorted, key, n);
    PrefixSplit(sorted, n);
    PrefixDominates(sorted, key, n);
  }
}

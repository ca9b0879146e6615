/** A stable sort by a real-valued key, highest key first: what Python's
    `sorted(xs, key=k, reverse=True)` computes. */
module Ranking {

  /** Highest key first: keys never increase along the list. */
  predicate Ranked<T>(key: T -> real, xs: seq<T>) {
    forall i, j :: 0 <= i < j < |xs| ==> key(xs[i]) >= key(xs[j])
  }

  /** Insert before every element whose key is not higher, so that `x`
      stays ahead of the equal-key elements that came after it. */
  function Insert<T>(key: T -> real, x: T, t: seq<T>): (r: seq<T>)
    ensures |r| == |t| + 1
    ensures multiset(r) == multiset{x} + multiset(t)
  {
    if t == [] || key(t[0]) <= key(x) then [x] + t
    else
      assert t == [t[0]] + t[1..];
      [t[0]] + Insert(key, x, t[1..])
  }

  lemma {:induction false} InsertRanked<T>(key: T -> real, x: T, t: seq<T>)
    requires Ranked(key, t)
    ensures Ranked(key, Insert(key, x, t))
  {
    if t != [] && key(t[0]) > key(x) {
      var rest := Insert(key, x, t[1..]);
      assert Ranked(key, t[1..]) by {
        forall i, j | 0 <= i < j < |t[1..]| ensures key(t[1..][i]) >= key(t[1..][j]) {
          assert t[1..][i] == t[i + 1] && t[1..][j] == t[j + 1];
        }
      }
      InsertRanked(key, x, t[1..]);
      var r := [t[0]] + rest;
      forall k | 1 <= k < |r| ensures key(r[0]) >= key(r[k]) {
        assert r[k] in multiset{x} + multiset(t[1..]);
        if r[k] != x {
          assert r[k] in t[1..];
          var m :| 0 <= m < |t[1..]| && t[1..][m] == r[k];
          assert t[m + 1] == r[k];
        }
      }
      assert Ranked(key, r) by {
        forall i, j | 0 <= i < j < |r| ensures key(r[i]) >= key(r[j]) {
          if i > 0 {
            assert r[i] == rest[i - 1] && r[j] == rest[j - 1];
          }
        }
      }
    }
  }

  /** Stable insertion sort, highest key first. */
  function SortBy<T>(key: T -> real, xs: seq<T>): (r: seq<T>)
    ensures |r| == |xs|
    ensures multiset(r) == multiset(xs)
  {
    if xs == [] then []
    else
      assert xs == [xs[0]] + xs[1..];
      Insert(key, xs[0], SortBy(key, xs[1..]))
  }

  /** The sort's result is ranked. */
  lemma {:induction false} SortByRanked<T>(key: T -> real, xs: seq<T>)
    ensures Ranked(key, SortBy(key, xs))
  {
    if xs != [] {
      SortByRanked(key, xs[1..]);
      InsertRanked(key, xs[0], SortBy(key, xs[1..]));
    }
  }

  /** The elements with key `v`, in list order. */
  function WithKey<T>(key: T -> real, xs: seq<T>, v: real): (r: seq<T>)
    ensures forall k :: 0 <= k < |r| ==> key(r[k]) == v
  {
    if xs == [] then []
    else (if key(xs[0]) == v then [xs[0]] else []) + WithKey(key, xs[1..], v)
  }

  lemma {:induction false} WithKeyInsert<T>(key: T -> real, x: T, t: seq<T>, v: real)
    ensures WithKey(key, Insert(key, x, t), v) == (if key(x) == v then [x] else []) + WithKey(key, t, v)
  {
    if t == [] || key(t[0]) <= key(x) {
      assert ([x] + t)[1..] == t;
    } else {
      var rest := Insert(key, x, t[1..]);
      WithKeyInsert(key, x, t[1..], v);
      assert ([t[0]] + rest)[1..] == rest;
    }
  }

  /** The sort is stable: the elements sharing any one key keep their
      relative order. */
  lemma {:induction false} SortByStable<T>(key: T -> real, xs: seq<T>, v: real)
    ensures WithKey(key, SortBy(key, xs), v) == WithKey(key, xs, v)
  {
    if xs != [] {
      SortByStable(key, xs[1..], v);
      WithKeyInsert(key, xs[0], SortBy(key, xs[1..]), v);
    }
  }

  /** A list already ranked is left as it is. */
  lemma {:induction false} SortByRankedIsIdentity<T>(key: T -> real, xs: seq<T>)
    requires Ranked(key, xs)
    ensures SortBy(key, xs) == xs
  {
    if xs != [] {
      assert Ranked(key, xs[1..]) by {
        forall i, j | 0 <= i < j < |xs[1..]| ensures key(xs[1..][i]) >= key(xs[1..][j]) {
          assert xs[1..][i] == xs[i + 1] && xs[1..][j] == xs[j + 1];
        }
      }
      SortByRankedIsIdentity(key, xs[1..]);
      assert xs == [xs[0]] + xs[1..];
    }
  }

  /** Sorting twice is sorting once. */
  lemma SortByIdempotent<T>(key: T -> real, xs: seq<T>)
    ensures SortBy(key, SortBy(key, xs)) == SortBy(key, xs)
  {
    SortByRanked(key, xs);
    SortByRankedIsIdentity(key, SortBy(key, xs));
  }
}

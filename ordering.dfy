/** Ranking by an integer key, as `Array.prototype.sort` with a descending
    comparator followed by `slice(0, k)` does it: a stable insertion sort
    (equal keys keep their encounter order) and the top-k prefix. */
module Ordering {

  ghost predicate SortedDesc<T>(s: seq<T>, key: T -> int) {
    forall i, j :: 0 <= i < j < |s| ==> key(s[i]) >= key(s[j])
  }

  /** No element occurs twice. */
  ghost predicate Distinct<T>(s: seq<T>) {
    forall i, j :: 0 <= i < j < |s| ==> s[i] != s[j]
  }

  /** No two elements agree on `f`. */
  ghost predicate DistinctBy<T, U>(s: seq<T>, f: T -> U) {
    forall i, j :: 0 <= i < j < |s| ==> f(s[i]) != f(s[j])
  }

  /** The elements of `s` whose key is `v`, in their order in `s`. */
  function WithKey<T>(s: seq<T>, key: T -> int, v: int): seq<T> {
    if s == [] then [] else (if key(s[0]) == v then [s[0]] else []) + WithKey(s[1..], key, v)
  }

  /** Places `x`, which comes before every element of `r` in encounter order,
      ahead of the first element whose key is not larger. */
  function Insert<T>(x: T, r: seq<T>, key: T -> int): (out: seq<T>)
    ensures |out| == |r| + 1
    ensures multiset(out) == multiset(r) + multiset{x}
    ensures SortedDesc(r, key) ==> SortedDesc(out, key)
  {
    if r == [] || key(x) >= key(r[0]) then [x] + r
    else
      var rest := Insert(x, r[1..], key);
      assert r == [r[0]] + r[1..];
      assert SortedDesc(r, key) ==> SortedDesc([r[0]] + rest, key) by {
        if SortedDesc(r, key) { HeadBoundsInsert(x, r, key, rest); }
      }
      [r[0]] + rest
  }

  /** The head of a sorted `r` is at least every key of `x` inserted into its tail,
      when it beats `x`. */
  lemma HeadBoundsInsert<T>(x: T, r: seq<T>, key: T -> int, rest: seq<T>)
    requires r != [] && key(x) < key(r[0]) && SortedDesc(r, key)
    requires multiset(rest) == multiset(r[1..]) + multiset{x}
    requires SortedDesc(rest, key)
    ensures SortedDesc([r[0]] + rest, key)
  {
    forall k | 0 <= k < |rest| ensures key(r[0]) >= key(rest[k]) {
      assert rest[k] in multiset(rest);
      if rest[k] != x {
        assert rest[k] in multiset(r[1..]);
        assert rest[k] in r[1..];
      }
    }
  }

  lemma WithKeyCons<T>(y: T, t: seq<T>, key: T -> int, v: int)
    ensures WithKey([y] + t, key, v) == (if key(y) == v then [y] else []) + WithKey(t, key, v)
  {
    assert ([y] + t)[0] == y && ([y] + t)[1..] == t;
  }

  /** Inserting `x` ahead of `r` puts it before every element of its own key
      and leaves the order among every key's elements as it was. */
  lemma {:induction false} InsertStable<T>(x: T, r: seq<T>, key: T -> int, v: int)
    ensures WithKey(Insert(x, r, key), key, v) == (if key(x) == v then [x] else []) + WithKey(r, key, v)
    decreases |r|
  {
    if r == [] || key(x) >= key(r[0]) {
      WithKeyCons(x, r, key, v);
    } else {
      InsertStable(x, r[1..], key, v);
      PassedHeadStable(x, r, key, v, Insert(x, r[1..], key));
    }
  }

  /** The step of InsertStable where `x` passes the head of `r`, whose key is larger. */
  lemma PassedHeadStable<T>(x: T, r: seq<T>, key: T -> int, v: int, rest: seq<T>)
    requires r != [] && key(x) < key(r[0])
    requires WithKey(rest, key, v) == (if key(x) == v then [x] else []) + WithKey(r[1..], key, v)
    ensures WithKey([r[0]] + rest, key, v) == (if key(x) == v then [x] else []) + WithKey(r, key, v)
  {
    WithKeyCons(r[0], rest, key, v);
    WithKeyCons(r[0], r[1..], key, v);
    assert [r[0]] + r[1..] == r;
    if key(x) == v {
      assert key(r[0]) != v;
    }
  }

  /** Sorts by non-increasing key. */
  function SortDesc<T>(s: seq<T>, key: T -> int): (out: seq<T>)
    ensures |out| == |s|
    ensures multiset(out) == multiset(s)
    ensures SortedDesc(out, key)
  {
    if s == [] then []
    else
      assert s == [s[0]] + s[1..];
      Insert(s[0], SortDesc(s[1..], key), key)
  }

  /** The sort is stable: the elements of each key come out in the order
      they went in. */
  lemma {:induction false} SortDescStable<T>(s: seq<T>, key: T -> int, v: int)
    ensures WithKey(SortDesc(s, key), key, v) == WithKey(s, key, v)
  {
    if s != [] {
      SortDescStable(s[1..], key, v);
      InsertStable(s[0], SortDesc(s[1..], key), key, v);
      WithKeyCons(s[0], s[1..], key, v);
      assert [s[0]] + s[1..] == s;
    }
  }

  /** Cutting a sequence short cuts each key's elements short. */
  lemma {:induction false} WithKeyPrefix<T>(s: seq<T>, key: T -> int, v: int, n: nat)
    requires n <= |s|
    ensures WithKey(s[..n], key, v) <= WithKey(s, key, v)
  {
    if n > 0 {
      WithKeyPrefix(s[1..], key, v, n - 1);
      assert s[..n][0] == s[0] && s[..n][1..] == s[1..][..n - 1];
    }
  }

  /** A duplicate-free sequence holds each value at most once. */
  lemma {:induction false} DistinctAtMostOnce<T>(s: seq<T>, x: T)
    requires Distinct(s)
    ensures multiset(s)[x] <= 1
  {
    if s != [] {
      assert s == [s[0]] + s[1..];
      assert Distinct(s[1..]) by {
        forall i, j | 0 <= i < j < |s[1..]| ensures s[1..][i] != s[1..][j] {
          assert s[1..][i] == s[i + 1] && s[1..][j] == s[j + 1];
        }
      }
      DistinctAtMostOnce(s[1..], x);
      if s[0] == x {
        assert x !in s[1..];
      }
    }
  }

  /** A permutation of a duplicate-free sequence is duplicate-free. */
  lemma PermutationDistinct<T>(a: seq<T>, b: seq<T>)
    requires multiset(a) == multiset(b) && Distinct(a)
    ensures Distinct(b)
  {
    forall i, j | 0 <= i < j < |b| ensures b[i] != b[j] {
      DistinctAtMostOnce(a, b[i]);
      assert b == b[..j] + b[j..];
      assert multiset(b) == multiset(b[..j]) + multiset(b[j..]);
      assert b[..j][i] == b[i] && b[j..][0] == b[j];
    }
  }

  /** `slice(0, k)`: the first k elements, or all of them when there are fewer. */
  function Take<T>(s: seq<T>, k: nat): (out: seq<T>)
    ensures |out| == if |s| <= k then |s| else k
    ensures out == s[..|out|]
    ensures Distinct(s) ==> Distinct(out)
  {
    if |s| <= k then s else s[..k]
  }

  /** The top k of a ranking holds min(k, n) elements and is sorted. */
  lemma TopSorted<T>(s: seq<T>, key: T -> int, k: nat)
    ensures |Take(SortDesc(s, key), k)| == if |s| <= k then |s| else k
    ensures SortedDesc(Take(SortDesc(s, key), k), key)
  {
    var sorted := SortDesc(s, key);
    var top := Take(sorted, k);
    forall i, j | 0 <= i < j < |top| ensures key(top[i]) >= key(top[j]) {
      assert top[i] == sorted[i] && top[j] == sorted[j];
    }
  }

  /** The top k of a ranking is drawn from its input. */
  lemma TopDrawnFrom<T>(s: seq<T>, key: T -> int, k: nat)
    ensures multiset(Take(SortDesc(s, key), k)) <= multiset(s)
    ensures forall x :: x in Take(SortDesc(s, key), k) ==> x in s
  {
    var sorted := SortDesc(s, key);
    var top := Take(sorted, k);
    assert sorted == top + sorted[|top|..];
    assert multiset(sorted) == multiset(top) + multiset(sorted[|top|..]);
    forall x | x in top ensures x in s {
      assert multiset(top)[x] > 0;
      assert multiset(s)[x] > 0;
    }
  }

  /** The top k of a ranking is stable: for every key, the elements kept
      are the first of that key's elements in input order. */
  lemma TopStable<T>(s: seq<T>, key: T -> int, k: nat)
    ensures forall v :: WithKey(Take(SortDesc(s, key), k), key, v) <= WithKey(s, key, v)
  {
    var sorted := SortDesc(s, key);
    var top := Take(sorted, k);
    forall v ensures WithKey(top, key, v) <= WithKey(s, key, v) {
      WithKeyPrefix(sorted, key, v, |top|);
      SortDescStable(s, key, v);
    }
  }

  /** The top k of a ranking keeps apart any elements the input keeps apart. */
  lemma TopDistinctBy<T, U>(s: seq<T>, key: T -> int, k: nat, f: T -> U)
    requires DistinctBy(s, f)
    ensures DistinctBy(Take(SortDesc(s, key), k), f)
  {
    var sorted := SortDesc(s, key);
    var top := Take(sorted, k);
    TopDrawnFrom(s, key, k);
    assert Distinct(s);
    PermutationDistinct(s, sorted);
    forall i, j | 0 <= i < j < |top| ensures f(top[i]) != f(top[j]) {
      assert top[i] in multiset(s) && top[j] in multiset(s);
      var a :| 0 <= a < |s| && s[a] == top[i];
      var b :| 0 <= b < |s| && s[b] == top[j];
      assert a != b;
    }
  }

  /** The top-k of a ranking dominates the rest: anything of the input left
      out has a key no larger than that of anything kept. */
  lemma TopDominates<T>(s: seq<T>, key: T -> int, k: nat, x: T, y: T)
    requires x in s && x !in Take(SortDesc(s, key), k)
    requires y in Take(SortDesc(s, key), k)
    ensures key(x) <= key(y)
  {
    var sorted := SortDesc(s, key);
    var top := Take(sorted, k);
    assert x in multiset(s);
    assert x in sorted;
    var j :| 0 <= j < |sorted| && sorted[j] == x;
    var i :| 0 <= i < |top| && top[i] == y;
    assert forall m :: 0 <= m < |top| ==> sorted[m] == top[m] && top[m] != x;
    assert j >= |top|;
    assert sorted[i] == y;
  }
}

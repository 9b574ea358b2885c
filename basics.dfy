/** Small shared vocabulary: an optional value, sums over sequences and over the
    values of a map, and the "get with default 0" lookup the application uses on
    its dictionaries. */
module Basics {

  datatype Option<+T> = None | Some(value: T)

  /** Python's `d.get(k, 0)` on an integer-valued dictionary. */
  function GetOrZero<K>(m: map<K, int>, k: K): int
  {
    if k in m then m[k] else 0
  }

  /** Sum of `f` over the elements of `s`, taken from left to right. */
  function SumOf<T>(s: seq<T>, f: T -> int): int
  {
    if s == [] then 0 else SumOf(s[..|s| - 1], f) + f(s[|s| - 1])
  }

  lemma SumOfSnoc<T>(s: seq<T>, x: T, f: T -> int)
    ensures SumOf(s + [x], f) == SumOf(s, f) + f(x)
  {
    assert (s + [x])[..|s|] == s;
  }

  lemma {:induction false} SumOfAppend<T>(a: seq<T>, b: seq<T>, f: T -> int)
    ensures SumOf(a + b, f) == SumOf(a, f) + SumOf(b, f)
  {
    if b == [] {
      assert a + b == a;
    } else {
      var n := |b| - 1;
      assert a + b == (a + b[..n]) + [b[n]];
      assert b == b[..n] + [b[n]];
      SumOfSnoc(a + b[..n], b[n], f);
      SumOfSnoc(b[..n], b[n], f);
      SumOfAppend(a, b[..n], f);
    }
  }

  /** Taking one term out of a sum. */
  lemma SumOfRemove<T>(b: seq<T>, k: nat, f: T -> int)
    requires k < |b|
    ensures SumOf(b, f) == SumOf(b[..k] + b[k + 1..], f) + f(b[k])
  {
    var pre, x, post := b[..k], b[k], b[k + 1..];
    var front := pre + [x];
    SplitAt(b, k);
    SumOfAppend(front, post, f);
    SumOfSnoc(pre, x, f);
    SumOfAppend(pre, post, f);
  }

  lemma SplitAt<T>(b: seq<T>, k: nat)
    requires k < |b|
    ensures b == b[..k] + [b[k]] + b[k + 1..]
  {
  }

  lemma MultisetRemove<T>(a: seq<T>, b: seq<T>, k: nat)
    requires multiset(a) == multiset(b) && a != [] && k < |b| && b[k] == a[|a| - 1]
    ensures multiset(a[..|a| - 1]) == multiset(b[..k] + b[k + 1..])
  {
    var n, x := |a| - 1, a[|a| - 1];
    calc {
      multiset(a[..n]);
      multiset(a[..n] + [x]) - multiset{x};
      { assert a[..n] + [x] == a; }
      multiset(b) - multiset{x};
      { assert b == b[..k] + [x] + b[k + 1..]; }
      multiset(b[..k] + b[k + 1..]);
    }
  }

  /** A sum does not depend on the order of its terms. */
  lemma {:induction false} SumOfPermutation<T>(a: seq<T>, b: seq<T>, f: T -> int)
    requires multiset(a) == multiset(b)
    ensures SumOf(a, f) == SumOf(b, f)
    decreases |a|
  {
    if a == [] {
      assert |b| == |multiset(b)| == 0;
    } else {
      var n := |a| - 1;
      var x := a[n];
      assert x in multiset(b);
      var k :| 0 <= k < |b| && b[k] == x;
      MultisetRemove(a, b, k);
      SumOfPermutation(a[..n], b[..k] + b[k + 1..], f);
      SumOfRemove(b, k, f);
    }
  }

  lemma {:induction false} SumOfZero<T>(s: seq<T>, f: T -> int)
    requires forall i | 0 <= i < |s| :: f(s[i]) == 0
    ensures SumOf(s, f) == 0
  {
    if s != [] {
      SumOfZero(s[..|s| - 1], f);
    }
  }

  /** With no negative term, a sum is at least each of its terms. */
  lemma {:induction false} SumOfAtLeastTerm<T>(s: seq<T>, f: T -> int, i: nat)
    requires forall j | 0 <= j < |s| :: f(s[j]) >= 0
    requires i < |s|
    ensures SumOf(s, f) >= f(s[i])
  {
    var n := |s| - 1;
    if i < n {
      SumOfAtLeastTerm(s[..n], f, i);
    } else {
      SumOfNonNegative(s[..n], f);
    }
  }

  lemma {:induction false} SumOfNonNegative<T>(s: seq<T>, f: T -> int)
    requires forall j | 0 <= j < |s| :: f(s[j]) >= 0
    ensures SumOf(s, f) >= 0
  {
    if s != [] {
      SumOfNonNegative(s[..|s| - 1], f);
    }
  }

  /** Sums of two functions that agree on every element are equal. */
  lemma {:induction false} SumOfPointwise<T>(s: seq<T>, f: T -> int, g: T -> int)
    requires forall i | 0 <= i < |s| :: f(s[i]) == g(s[i])
    ensures SumOf(s, f) == SumOf(s, g)
  {
    if s != [] {
      SumOfPointwise(s[..|s| - 1], f, g);
    }
  }

  /** Two maps with the same keys and the same value under every key are equal. */
  lemma MapsEqual<K, V>(a: map<K, V>, b: map<K, V>)
    requires a.Keys == b.Keys
    requires forall k | k in a :: a[k] == b[k]
    ensures a == b
  {
  }

  /** Sum of the values of a map; the key taken first is irrelevant (MapTotalRemove). */
  ghost function MapTotal<K>(m: map<K, int>): int
    decreases |m|
  {
    if m == map[] then 0
    else
      var k :| k in m;
      assert |m - {k}| < |m| by { MapRemoveSize(m, k); }
      m[k] + MapTotal(m - {k})
  }

  lemma MapRemoveSize<K>(m: map<K, int>, k: K)
    requires k in m
    ensures |m - {k}| == |m| - 1
  {
    assert (m - {k}).Keys == m.Keys - {k};
    assert |m.Keys - {k}| == |m.Keys| - 1;
  }

  lemma {:induction false} MapTotalRemove<K>(m: map<K, int>, k: K)
    requires k in m
    ensures MapTotal(m) == m[k] + MapTotal(m - {k})
    decreases |m|
  {
    var j :| j in m && MapTotal(m) == m[j] + MapTotal(m - {j});
    if j != k {
      MapRemoveSize(m, j);
      MapRemoveSize(m, k);
      MapTotalRemove(m - {j}, k);
      MapTotalRemove(m - {k}, j);
      assert (m - {j}) - {k} == (m - {k}) - {j};
    }
  }

  /** Changing one entry of a map changes its total by the difference. */
  lemma MapTotalUpdate<K>(m: map<K, int>, k: K, v: int)
    ensures MapTotal(m[k := v]) == MapTotal(m) - GetOrZero(m, k) + v
  {
    MapTotalRemove(m[k := v], k);
    assert m[k := v] - {k} == m - {k};
    if k in m {
      MapTotalRemove(m, k);
    } else {
      assert m - {k} == m;
    }
  }

  /** Adding `q` under one key adds `q` to the total. */
  lemma MapTotalAdd<K>(m: map<K, int>, m': map<K, int>, k: K, q: int)
    requires m' == m[k := GetOrZero(m, k) + q]
    ensures MapTotal(m') == MapTotal(m) + q
  {
    var v := GetOrZero(m, k) + q;
    MapTotalUpdate(m, k, v);
    assert MapTotal(m') == MapTotal(m) - GetOrZero(m, k) + v;
  }
}

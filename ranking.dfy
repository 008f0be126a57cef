/** `Array.prototype.sort((a, b) => key(b) - key(a))`: the stable sort by a
    numeric key, largest first, that the fee detector and the predictive
    analytics apply to their results. It is written as an insertion sort
    that places each element after every element whose key is not smaller,
    which is what keeps equal keys in their original order. */
module Ranking {

  /** Keys never increase from left to right. */
  predicate NonIncreasing<T>(s: seq<T>, key: T -> real) {
    forall i, j :: 0 <= i < j < |s| ==> key(s[i]) >= key(s[j])
  }

  /** The elements of `s` whose key is `v`, in their order in `s`. */
  function WithKey<T>(s: seq<T>, key: T -> real, v: real): seq<T> {
    if s == [] then []
    else WithKey(s[..|s| - 1], key, v) + (if key(s[|s| - 1]) == v then [s[|s| - 1]] else [])
  }

  function Insert<T>(t: seq<T>, x: T, key: T -> real): (r: seq<T>)
    ensures |r| == |t| + 1
    ensures multiset(r) == multiset(t) + multiset{x}
  {
    if t == [] then [x]
    else if key(t[|t| - 1]) >= key(x) then t + [x]
    else
      assert t == t[..|t| - 1] + [t[|t| - 1]];
      Insert(t[..|t| - 1], x, key) + [t[|t| - 1]]
  }

  function SortDesc<T>(s: seq<T>, key: T -> real): (r: seq<T>)
    ensures |r| == |s|
    ensures multiset(r) == multiset(s)
  {
    if s == [] then []
    else
      assert s == s[..|s| - 1] + [s[|s| - 1]];
      Insert(SortDesc(s[..|s| - 1], key), s[|s| - 1], key)
  }

  lemma {:induction false} InsertKeepsOrder<T>(t: seq<T>, x: T, key: T -> real)
    requires NonIncreasing(t, key)
    ensures NonIncreasing(Insert(t, x, key), key)
  {
    if t != [] && key(t[|t| - 1]) < key(x) {
      var init, last := t[..|t| - 1], t[|t| - 1];
      InsertKeepsOrder(init, x, key);
      assert forall i :: 0 <= i < |init| ==> init[i] == t[i];
      InsertAtLeast(init, x, key, key(last));
      var u := Insert(init, x, key);
      var r := u + [last];
      forall i, j | 0 <= i < j < |r| ensures key(r[i]) >= key(r[j]) {
        assert r[i] == u[i];
        if j < |u| {
          assert r[j] == u[j];
        }
      }
    }
  }

  /** Inserting a key no smaller than `b` among keys no smaller than `b`
      leaves every key no smaller than `b`. */
  lemma {:induction false} InsertAtLeast<T>(t: seq<T>, x: T, key: T -> real, b: real)
    requires forall i :: 0 <= i < |t| ==> key(t[i]) >= b
    requires key(x) >= b
    ensures forall i :: 0 <= i < |Insert(t, x, key)| ==> key(Insert(t, x, key)[i]) >= b
  {
    if t != [] && key(t[|t| - 1]) < key(x) {
      var init := t[..|t| - 1];
      InsertAtLeast(init, x, key, b);
      var r := Insert(t, x, key);
      assert r == Insert(init, x, key) + [t[|t| - 1]];
    }
  }

  /** The result is ordered by non-increasing key. */
  lemma {:induction false} SortDescOrdered<T>(s: seq<T>, key: T -> real)
    ensures NonIncreasing(SortDesc(s, key), key)
  {
    if s != [] {
      SortDescOrdered(s[..|s| - 1], key);
      InsertKeepsOrder(SortDesc(s[..|s| - 1], key), s[|s| - 1], key);
    }
  }

  lemma {:induction false} WithKeyAppend<T>(a: seq<T>, b: seq<T>, key: T -> real, v: real)
    ensures WithKey(a + b, key, v) == WithKey(a, key, v) + WithKey(b, key, v)
    decreases |b|
  {
    if b != [] {
      assert (a + b)[..|a + b| - 1] == a + b[..|b| - 1];
      WithKeyAppend(a, b[..|b| - 1], key, v);
    } else {
      assert a + b == a;
    }
  }

  lemma {:induction false} InsertStable<T>(t: seq<T>, x: T, key: T -> real, v: real)
    ensures WithKey(Insert(t, x, key), key, v)
         == WithKey(t, key, v) + (if key(x) == v then [x] else [])
  {
    if t == [] {
      assert WithKey([x], key, v) == WithKey([], key, v) + (if key(x) == v then [x] else []);
    } else if key(t[|t| - 1]) >= key(x) {
      assert WithKey(t + [x], key, v) == WithKey(t, key, v) + (if key(x) == v then [x] else []) by {
        assert (t + [x])[..|t + [x]| - 1] == t;
      }
    } else {
      var init, last := t[..|t| - 1], t[|t| - 1];
      InsertStable(init, x, key, v);
      WithKeyAppend(Insert(init, x, key), [last], key, v);
      assert [last][..0] == [];
      assert WithKey([last], key, v) == (if key(last) == v then [last] else []);
    }
  }

  /** Stability: among elements with equal keys the input order is kept, so
      the sort changes nothing but the order of elements with different keys. */
  lemma {:induction false} SortDescStable<T>(s: seq<T>, key: T -> real, v: real)
    ensures WithKey(SortDesc(s, key), key, v) == WithKey(s, key, v)
  {
    if s != [] {
      SortDescStable(s[..|s| - 1], key, v);
      InsertStable(SortDesc(s[..|s| - 1], key), s[|s| - 1], key, v);
    }
  }
}

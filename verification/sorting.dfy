/** The dashboard sorts in place with `Array.prototype.sort`, which is a
    stable sort. Each comparator it passes (`a.level - b.level`,
    `a - b`, `sortByAvailable`) compares one numeric key, so every such call
    is modelled by `SortByKey` with the matching key function. The method is
    proved equal to `StableSort`, a functional reference definition. */
module Sorting {

  /** Keys ascend along `s`. */
  predicate SortedBy<T>(s: seq<T>, key: T -> real)
  {
    forall i, j :: 0 <= i < j < |s| ==> key(s[i]) <= key(s[j])
  }

  /** The elements of `s` whose key is `k`, in their order in `s`. */
  function WithKey<T>(s: seq<T>, key: T -> real, k: real): (r: seq<T>)
    ensures |r| <= |s|
  {
    if s == [] then []
    else (if key(s[0]) == k then [s[0]] else []) + WithKey(s[1..], key, k)
  }

  /** `s` and `t` hold, key by key, the same elements in the same order:
      what a stable reordering by `key` keeps. */
  ghost predicate SameOrderPerKey<T>(s: seq<T>, t: seq<T>, key: T -> real)
  {
    forall k :: WithKey(s, key, k) == WithKey(t, key, k)
  }

  /** Inserts `x` in front of the first element whose key is not smaller. */
  function Insert<T>(x: T, s: seq<T>, key: T -> real): (r: seq<T>)
    ensures |r| == |s| + 1
  {
    if s == [] || key(x) <= key(s[0]) then [x] + s
    else [s[0]] + Insert(x, s[1..], key)
  }

  /** Stable insertion sort by `key`, the reference definition. */
  function StableSort<T>(s: seq<T>, key: T -> real): (r: seq<T>)
    ensures |r| == |s|
  {
    if s == [] then [] else Insert(s[0], StableSort(s[1..], key), key)
  }

  lemma {:induction false} WithKeyAppend<T>(a: seq<T>, b: seq<T>, key: T -> real, k: real)
    ensures WithKey(a + b, key, k) == WithKey(a, key, k) + WithKey(b, key, k)
  {
    if a == [] {
      assert a + b == b;
    } else {
      var head := if key(a[0]) == k then [a[0]] else [];
      assert (a + b)[0] == a[0];
      assert (a + b)[1..] == a[1..] + b;
      assert WithKey(a + b, key, k) == head + WithKey(a[1..] + b, key, k);
      assert WithKey(a, key, k) == head + WithKey(a[1..], key, k);
      WithKeyAppend(a[1..], b, key, k);
    }
  }

  lemma WithKeySingleton<T>(x: T, key: T -> real, k: real)
    ensures WithKey([x], key, k) == if key(x) == k then [x] else []
  {
    assert [x][1..] == [];
  }

  lemma {:induction false} WithKeyMember<T>(s: seq<T>, key: T -> real, k: real, x: T)
    requires x in WithKey(s, key, k)
    ensures x in s && key(x) == k
  {
    if s != [] && !(x == s[0] && key(s[0]) == k) {
      WithKeyMember(s[1..], key, k, x);
      assert s == [s[0]] + s[1..];
    }
  }

  /** Appending one element extends exactly the selection of its own key. */
  lemma WithKeySnoc<T>(s: seq<T>, x: T, key: T -> real, k: real)
    ensures WithKey(s + [x], key, k) == WithKey(s, key, k) + (if key(x) == k then [x] else [])
  {
    WithKeyAppend(s, [x], key, k);
    WithKeySingleton(x, key, k);
  }

  lemma {:induction false} WithKeyComplete<T>(s: seq<T>, key: T -> real, x: T)
    requires x in s
    ensures x in WithKey(s, key, key(x))
  {
    if x != s[0] {
      assert x in s[1..];
      WithKeyComplete(s[1..], key, x);
    }
  }

  lemma {:induction false} InsertMultiset<T>(x: T, s: seq<T>, key: T -> real)
    ensures multiset(Insert(x, s, key)) == multiset([x] + s)
  {
    if s != [] && key(x) > key(s[0]) {
      InsertMultiset(x, s[1..], key);
      assert s == [s[0]] + s[1..];
    }
  }

  lemma SortedCons<T>(h: T, t: seq<T>, key: T -> real)
    requires SortedBy(t, key)
    requires forall y :: y in t ==> key(h) <= key(y)
    ensures SortedBy([h] + t, key)
  {
    var r := [h] + t;
    forall i, j | 0 <= i < j < |r| ensures key(r[i]) <= key(r[j]) {
      if i == 0 {
        assert r[j] == t[j - 1];
        assert r[j] in t;
      } else {
        assert r[i] == t[i - 1] && r[j] == t[j - 1];
      }
    }
  }

  lemma {:induction false} InsertSorted<T>(x: T, s: seq<T>, key: T -> real)
    requires SortedBy(s, key)
    ensures SortedBy(Insert(x, s, key), key)
  {
    if s == [] || key(x) <= key(s[0]) {
      forall y | y in s ensures key(x) <= key(s[0]) <= key(y) {
        var i :| 0 <= i < |s| && s[i] == y;
      }
      SortedCons(x, s, key);
    } else {
      var tail := Insert(x, s[1..], key);
      assert SortedBy(s[1..], key);
      InsertSorted(x, s[1..], key);
      InsertMultiset(x, s[1..], key);
      forall y | y in tail ensures key(s[0]) <= key(y) {
        assert y in multiset([x] + s[1..]);
        assert y == x || y in s[1..];
      }
      SortedCons(s[0], tail, key);
    }
  }

  lemma {:induction false} InsertWithKey<T>(x: T, s: seq<T>, key: T -> real, k: real)
    ensures WithKey(Insert(x, s, key), key, k) == WithKey([x] + s, key, k)
  {
    if s != [] && key(x) > key(s[0]) {
      InsertWithKey(x, s[1..], key, k);
      WithKeyAppend([s[0]], Insert(x, s[1..], key), key, k);
      WithKeyAppend([x], s[1..], key, k);
      WithKeyAppend([x], s, key, k);
      WithKeyAppend([s[0]], s[1..], key, k);
      WithKeySingleton(x, key, k);
      WithKeySingleton(s[0], key, k);
      assert s == [s[0]] + s[1..];
    }
  }

  /** The reference sort orders by key and moves no element past another
      one with the same key. */
  lemma {:induction false} StableSortCorrect<T>(s: seq<T>, key: T -> real)
    ensures SortedBy(StableSort(s, key), key)
    ensures SameOrderPerKey(StableSort(s, key), s, key)
    ensures multiset(StableSort(s, key)) == multiset(s)
  {
    if s != [] {
      var rest := StableSort(s[1..], key);
      StableSortCorrect(s[1..], key);
      InsertSorted(s[0], rest, key);
      InsertMultiset(s[0], rest, key);
      forall k ensures WithKey(StableSort(s, key), key, k) == WithKey(s, key, k) {
        InsertWithKey(s[0], rest, key, k);
        WithKeyAppend([s[0]], rest, key, k);
        WithKeyAppend([s[0]], s[1..], key, k);
        assert s == [s[0]] + s[1..];
      }
      assert s == [s[0]] + s[1..];
    }
  }

  lemma WithKeyHead<T>(s: seq<T>, key: T -> real)
    requires s != []
    ensures WithKey(s, key, key(s[0])) == [s[0]] + WithKey(s[1..], key, key(s[0]))
  {
  }

  /** A sorted sequence is determined by what it holds under each key:
      two sorted sequences that agree key by key are equal. */
  lemma {:induction false} SortedSameOrderUnique<T>(s: seq<T>, t: seq<T>, key: T -> real)
    requires SortedBy(s, key) && SortedBy(t, key)
    requires SameOrderPerKey(s, t, key)
    ensures s == t
    decreases |s| + |t|
  {
    if s == [] {
      if t != [] {
        assert false;
      }
    } else if t == [] {
      WithKeyHead(s, key);
      assert false;
    } else {
      var k0, k1 := key(s[0]), key(t[0]);
      WithKeyHead(s, key);
      WithKeyHead(t, key);
      assert WithKey(s, key, k0) == WithKey(t, key, k0);
      assert s[0] in WithKey(t, key, k0);
      WithKeyMember(t, key, k0, s[0]);
      assert k1 <= k0;
      assert WithKey(s, key, k1) == WithKey(t, key, k1);
      assert t[0] in WithKey(s, key, k1);
      WithKeyMember(s, key, k1, t[0]);
      assert k0 <= k1;
      assert WithKey(s, key, k0)[0] == s[0];
      assert WithKey(t, key, k0)[0] == t[0];
      forall k ensures WithKey(s[1..], key, k) == WithKey(t[1..], key, k) {
        var both := WithKey(s, key, k);
        assert both == WithKey(t, key, k);
        WithKeyAppend([s[0]], s[1..], key, k);
        WithKeyAppend([t[0]], t[1..], key, k);
        WithKeySingleton(s[0], key, k);
        assert s == [s[0]] + s[1..];
        assert t == [t[0]] + t[1..];
        var h := WithKey([s[0]], key, k);
        assert WithKey(s[1..], key, k) == both[|h|..];
        assert WithKey(t[1..], key, k) == both[|h|..];
      }
      assert SortedBy(s[1..], key) && SortedBy(t[1..], key);
      SortedSameOrderUnique(s[1..], t[1..], key);
    }
  }

  /** Exchanging two neighbours with different keys keeps the order per key. */
  lemma SwapSameOrder<T>(s: seq<T>, j: int, key: T -> real)
    requires 0 < j < |s| && key(s[j - 1]) != key(s[j])
    ensures SameOrderPerKey(s[j - 1 := s[j]][j := s[j - 1]], s, key)
  {
    var t := s[j - 1 := s[j]][j := s[j - 1]];
    assert s == s[..j - 1] + [s[j - 1], s[j]] + s[j + 1..];
    assert t == s[..j - 1] + [s[j], s[j - 1]] + s[j + 1..];
    forall k ensures WithKey(t, key, k) == WithKey(s, key, k) {
      WithKeyAppend(s[..j - 1] + [s[j], s[j - 1]], s[j + 1..], key, k);
      WithKeyAppend(s[..j - 1], [s[j], s[j - 1]], key, k);
      WithKeyAppend(s[..j - 1] + [s[j - 1], s[j]], s[j + 1..], key, k);
      WithKeyAppend(s[..j - 1], [s[j - 1], s[j]], key, k);
      WithKeyAppend([s[j]], [s[j - 1]], key, k);
      WithKeyAppend([s[j - 1]], [s[j]], key, k);
    }
  }

  /** In-place stable sort by `key` (insertion sort by adjacent exchanges). */
  method SortByKey<T>(a: array<T>, key: T -> real)
    modifies a
    ensures a[..] == StableSort(old(a[..]), key)
  {
    ghost var orig := a[..];
    var i := 0;
    while i < a.Length
      invariant 0 <= i <= a.Length
      invariant forall p, q :: 0 <= p < q < i ==> key(a[p]) <= key(a[q])
      invariant SameOrderPerKey(a[..], orig, key)
    {
      var j := i;
      while j > 0 && key(a[j - 1]) > key(a[j])
        invariant 0 <= j <= i
        invariant forall p, q :: 0 <= p < q <= i && p != j && q != j ==> key(a[p]) <= key(a[q])
        invariant forall q :: j < q <= i ==> key(a[j]) < key(a[q])
        invariant SameOrderPerKey(a[..], orig, key)
      {
        SwapSameOrder(a[..], j, key);
        a[j - 1], a[j] := a[j], a[j - 1];
        j := j - 1;
      }
      i := i + 1;
    }
    StableSortCorrect(orig, key);
    SortedSameOrderUnique(a[..], StableSort(orig, key), key);
  }

  /** Keeping only some elements of a sorted sequence leaves it sorted. */
  lemma {:induction false} WithKeyKeepsSorted<T>(s: seq<T>, key: T -> real, order: T -> real, k: real)
    requires SortedBy(s, order)
    ensures SortedBy(WithKey(s, key, k), order)
  {
    if s != [] {
      WithKeyKeepsSorted(s[1..], key, order, k);
      var rest := WithKey(s[1..], key, k);
      forall y | y in rest ensures order(s[0]) <= order(y) {
        WithKeyMember(s[1..], key, k, y);
        var i :| 0 <= i < |s[1..]| && s[1..][i] == y;
        assert s[i + 1] == y;
      }
      assert SortedBy(s[1..], order);
      if key(s[0]) == k {
        SortedCons(s[0], rest, order);
      }
    }
  }
}

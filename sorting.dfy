// Python's `sorted(s, key=key, reverse=True)` (and `list.sort` with the same
// arguments): largest key first, elements with equal keys in their original
// order, since Python's sort is stable also when reversed.
module Sorting {

  /** Every key is at least the keys after it. */
  predicate SortedDesc<T>(s: seq<T>, key: T -> int)
  {
    forall i, j | 0 <= i < j < |s| :: key(s[i]) >= key(s[j])
  }

  /** A window of a sequence sorted by `key` is sorted by `key`. */
  lemma SortedDescWindow<T>(s: seq<T>, key: T -> int, lo: nat, hi: nat)
    requires lo <= hi <= |s| && SortedDesc(s, key)
    ensures SortedDesc(s[lo..hi], key)
  {
    forall i, j | 0 <= i < j < hi - lo ensures key(s[lo..hi][i]) >= key(s[lo..hi][j]) {
      assert s[lo..hi][i] == s[lo + i] && s[lo..hi][j] == s[lo + j];
    }
  }

  /** Inserts `x` after every element whose key is at least its own. */
  function InsertDesc<T>(s: seq<T>, x: T, key: T -> int): (r: seq<T>)
    ensures |r| == |s| + 1
  {
    if s == [] then [x]
    else if key(s[0]) >= key(x) then [s[0]] + InsertDesc(s[1..], x, key)
    else [x] + s
  }

  /** The elements of `s` in turn, each inserted after the ones with a key at least its own. */
  function SortDesc<T>(s: seq<T>, key: T -> int): (r: seq<T>)
    ensures |r| == |s|
  {
    if s == [] then [] else InsertDesc(SortDesc(s[..|s| - 1], key), s[|s| - 1], key)
  }

  /** The elements whose key is `k`, in order. */
  function WithKey<T>(s: seq<T>, key: T -> int, k: int): seq<T>
  {
    if s == [] then [] else (if key(s[0]) == k then [s[0]] else []) + WithKey(s[1..], key, k)
  }

  lemma {:induction false} WithKeyAppend<T>(a: seq<T>, b: seq<T>, key: T -> int, k: int)
    ensures WithKey(a + b, key, k) == WithKey(a, key, k) + WithKey(b, key, k)
    decreases |a|
  {
    if a != [] {
      assert (a + b)[1..] == a[1..] + b;
      WithKeyAppend(a[1..], b, key, k);
    } else {
      assert a + b == b;
    }
  }

  lemma {:induction false} InsertDescElements<T>(s: seq<T>, x: T, key: T -> int)
    ensures multiset(InsertDesc(s, x, key)) == multiset(s) + multiset{x}
    decreases |s|
  {
    if s != [] {
      assert s == [s[0]] + s[1..];
      if key(s[0]) >= key(x) {
        InsertDescElements(s[1..], x, key);
      }
    }
  }

  lemma {:induction false} InsertDescSorted<T>(s: seq<T>, x: T, key: T -> int)
    requires SortedDesc(s, key)
    ensures SortedDesc(InsertDesc(s, x, key), key)
    decreases |s|
  {
    if s != [] && key(s[0]) >= key(x) {
      var rest := InsertDesc(s[1..], x, key);
      InsertDescSorted(s[1..], x, key);
      InsertDescElements(s[1..], x, key);
      forall y | y in rest ensures key(s[0]) >= key(y) {
        assert y in multiset(s[1..]) + multiset{x};
      }
      ConsSorted(s[0], rest, key);
    } else if s != [] {
      assert s == [s[0]] + s[1..];
      ConsSorted(x, s, key);
    }
  }

  /** A first element with a key at least every other keeps a sorted list sorted. */
  lemma {:induction false} ConsSorted<T>(a: T, s: seq<T>, key: T -> int)
    requires SortedDesc(s, key) && forall y | y in s :: key(a) >= key(y)
    ensures SortedDesc([a] + s, key)
  {
    var r := [a] + s;
    forall i, j | 0 <= i < j < |r| ensures key(r[i]) >= key(r[j]) {
      assert r[j] == s[j - 1];
      if i > 0 {
        assert r[i] == s[i - 1];
      }
    }
  }

  /** The sorted list has the largest keys first and the same elements as `s`. */
  lemma {:induction false} SortDescMeaning<T>(s: seq<T>, key: T -> int)
    ensures SortedDesc(SortDesc(s, key), key)
    ensures multiset(SortDesc(s, key)) == multiset(s)
    decreases |s|
  {
    if s != [] {
      var init := s[..|s| - 1];
      SortDescMeaning(init, key);
      InsertDescSorted(SortDesc(init, key), s[|s| - 1], key);
      InsertDescElements(SortDesc(init, key), s[|s| - 1], key);
      assert s == init + [s[|s| - 1]];
    }
  }

  /** Inserting `x` adds it last among the elements with its key. */
  lemma {:induction false} InsertDescStable<T>(s: seq<T>, x: T, key: T -> int, k: int)
    requires SortedDesc(s, key)
    ensures WithKey(InsertDesc(s, x, key), key, k) == WithKey(s, key, k) + WithKey([x], key, k)
    decreases |s|
  {
    if s == [] {
      assert [x] + [] == [x];
    } else if key(s[0]) >= key(x) {
      SortedDescWindow(s, key, 1, |s|);
      InsertDescStable(s[1..], x, key, k);
      StableAfterHead(s, x, key, k);
    } else {
      WithKeyAppend([x], s, key, k);
      if key(x) == k {
        NoneWithKey(s, key, k);
      }
    }
  }

  /** The step of `InsertDescStable` where `x` goes after the first element. */
  lemma StableAfterHead<T>(s: seq<T>, x: T, key: T -> int, k: int)
    requires s != [] && key(s[0]) >= key(x)
    requires WithKey(InsertDesc(s[1..], x, key), key, k) == WithKey(s[1..], key, k) + WithKey([x], key, k)
    ensures WithKey(InsertDesc(s, x, key), key, k) == WithKey(s, key, k) + WithKey([x], key, k)
  {
    assert InsertDesc(s, x, key) == [s[0]] + InsertDesc(s[1..], x, key);
    WithKeyAppend([s[0]], InsertDesc(s[1..], x, key), key, k);
    WithKeyAppend([s[0]], s[1..], key, k);
    assert [s[0]] + s[1..] == s;
  }

  /** Under a first element with a smaller key, a sorted list holds no element with key `k`. */
  lemma {:induction false} NoneWithKey<T>(s: seq<T>, key: T -> int, k: int)
    requires SortedDesc(s, key) && s != [] && key(s[0]) < k
    ensures WithKey(s, key, k) == []
    decreases |s|
  {
    if |s| > 1 {
      assert key(s[1]) <= key(s[0]);
      NoneWithKey(s[1..], key, k);
    } else {
      assert s[1..] == [];
    }
  }

  /** Sorting keeps the relative order of the elements with equal keys. */
  lemma {:induction false} SortDescStable<T>(s: seq<T>, key: T -> int, k: int)
    ensures WithKey(SortDesc(s, key), key, k) == WithKey(s, key, k)
    decreases |s|
  {
    if s != [] {
      var init := s[..|s| - 1];
      var x := s[|s| - 1];
      SortDescStable(init, key, k);
      SortDescMeaning(init, key);
      InsertDescStable(SortDesc(init, key), x, key, k);
      WithKeyAppend(init, [x], key, k);
      assert init + [x] == s;
    }
  }
}

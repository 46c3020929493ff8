/**
 * Python's `sorted(xs, key=k)`: a stable sort, here an insertion sort on a real-valued
 * key. `sorted(xs, key=k, reverse=True)` is also stable in Python, so it is this sort
 * on the negated key. The lemmas prove that the result is ordered, is a permutation of
 * the input and keeps equal-key elements in their input order, which together fix the
 * result uniquely.
 */
module Sorting {

  ghost predicate SortedBy<T>(s: seq<T>, key: T -> real) {
    forall i, j :: 0 <= i < j < |s| ==> key(s[i]) <= key(s[j])
  }

  /** No two positions of `s` carry the same `f`-value. */
  ghost predicate DistinctBy<T, K>(s: seq<T>, f: T -> K) {
    forall i, j :: 0 <= i < j < |s| ==> f(s[i]) != f(s[j])
  }

  /** The elements of `s` whose key is `q`, in their order in `s`. */
  function WithKey<T>(s: seq<T>, key: T -> real, q: real): seq<T>
  {
    if |s| == 0 then []
    else WithKey(s[..|s| - 1], key, q) + (if key(s[|s| - 1]) == q then [s[|s| - 1]] else [])
  }

  /** Sum of `f` over the elements of `s`, left to right (Python's `sum(f(x) for x in s)`). */
  function SumBy<T>(s: seq<T>, f: T -> real): real
  {
    if |s| == 0 then 0.0 else SumBy(s[..|s| - 1], f) + f(s[|s| - 1])
  }

  /** Places `x` after every element of `s` whose key is at most `key(x)`. */
  function Insert<T>(x: T, s: seq<T>, key: T -> real): seq<T>
    decreases |s|
  {
    if |s| == 0 || key(s[|s| - 1]) <= key(x) then s + [x]
    else Insert(x, s[..|s| - 1], key) + [s[|s| - 1]]
  }

  function SortBy<T>(s: seq<T>, key: T -> real): seq<T>
  {
    if |s| == 0 then [] else Insert(s[|s| - 1], SortBy(s[..|s| - 1], key), key)
  }

  lemma {:induction false} InsertPermutes<T>(x: T, s: seq<T>, key: T -> real)
    ensures multiset(Insert(x, s, key)) == multiset(s) + multiset{x}
    decreases |s|
  {
    if |s| == 0 || key(s[|s| - 1]) <= key(x) {
    } else {
      var init := s[..|s| - 1];
      assert s == init + [s[|s| - 1]];
      InsertPermutes(x, init, key);
    }
  }

  lemma {:induction false} InsertSorted<T>(x: T, s: seq<T>, key: T -> real)
    requires SortedBy(s, key)
    ensures SortedBy(Insert(x, s, key), key)
    decreases |s|
  {
    if |s| == 0 || key(s[|s| - 1]) <= key(x) {
    } else {
      var last := s[|s| - 1];
      var init := s[..|s| - 1];
      assert s == init + [last];
      var r' := Insert(x, init, key);
      InsertSorted(x, init, key);
      InsertPermutes(x, init, key);
      forall i | 0 <= i < |r'| ensures key(r'[i]) <= key(last) {
        assert r'[i] in multiset(r');
        if r'[i] != x {
          assert r'[i] in multiset(init);
          var k :| 0 <= k < |init| && init[k] == r'[i];
          assert s[k] == init[k];
        }
      }
    }
  }

  /** The sort returns a permutation of its input, ordered by the key. */
  lemma {:induction false} SortBySortsAndPermutes<T>(s: seq<T>, key: T -> real)
    ensures multiset(SortBy(s, key)) == multiset(s)
    ensures SortedBy(SortBy(s, key), key)
  {
    if |s| > 0 {
      var init := s[..|s| - 1];
      assert s == init + [s[|s| - 1]];
      SortBySortsAndPermutes(init, key);
      InsertPermutes(s[|s| - 1], SortBy(init, key), key);
      InsertSorted(s[|s| - 1], SortBy(init, key), key);
    }
  }

  lemma WithKeyAppend<T>(s: seq<T>, y: T, key: T -> real, q: real)
    ensures WithKey(s + [y], key, q) == WithKey(s, key, q) + (if key(y) == q then [y] else [])
  {
    assert (s + [y])[..|s|] == s;
  }

  lemma SwapEmpty<T>(a: seq<T>, xs: seq<T>, ys: seq<T>)
    requires xs == [] || ys == []
    ensures a + xs + ys == a + ys + xs
  {
  }

  lemma {:induction false} WithKeyInsert<T>(x: T, s: seq<T>, key: T -> real, q: real)
    ensures WithKey(Insert(x, s, key), key, q)
         == WithKey(s, key, q) + (if key(x) == q then [x] else [])
    decreases |s|
  {
    if |s| == 0 || key(s[|s| - 1]) <= key(x) {
      assert Insert(x, s, key) == s + [x];
      WithKeyAppend(s, x, key, q);
    } else {
      var last := s[|s| - 1];
      var init := s[..|s| - 1];
      var r' := Insert(x, init, key);
      assert Insert(x, s, key) == r' + [last];
      assert s == init + [last];
      WithKeyInsert(x, init, key, q);
      WithKeyAppend(r', last, key, q);
      WithKeyAppend(init, last, key, q);
      SwapEmpty(WithKey(init, key, q), if key(x) == q then [x] else [], if key(last) == q then [last] else []);
    }
  }

  /** Stability: the sort keeps elements with equal keys in their input order. */
  lemma {:induction false} SortByStable<T>(s: seq<T>, key: T -> real, q: real)
    ensures WithKey(SortBy(s, key), key, q) == WithKey(s, key, q)
  {
    if |s| > 0 {
      SortByStable(s[..|s| - 1], key, q);
      WithKeyInsert(s[|s| - 1], SortBy(s[..|s| - 1], key), key, q);
    }
  }

  lemma {:induction false} SumByInsert<T>(x: T, s: seq<T>, key: T -> real, f: T -> real)
    ensures SumBy(Insert(x, s, key), f) == SumBy(s, f) + f(x)
    decreases |s|
  {
    if |s| == 0 || key(s[|s| - 1]) <= key(x) {
      assert (s + [x])[..|s|] == s;
    } else {
      var last := s[|s| - 1];
      var init := s[..|s| - 1];
      var r' := Insert(x, init, key);
      assert (r' + [last])[..|r'|] == r';
      SumByInsert(x, init, key, f);
    }
  }

  /** Sorting does not change a sum over the elements. */
  lemma {:induction false} SumBySort<T>(s: seq<T>, key: T -> real, f: T -> real)
    ensures SumBy(SortBy(s, key), f) == SumBy(s, f)
  {
    if |s| > 0 {
      SumBySort(s[..|s| - 1], key, f);
      SumByInsert(s[|s| - 1], SortBy(s[..|s| - 1], key), key, f);
    }
  }

  lemma {:induction false} DistinctByInsert<T, K>(x: T, s: seq<T>, key: T -> real, f: T -> K)
    requires DistinctBy(s, f)
    requires forall y :: y in s ==> f(y) != f(x)
    ensures DistinctBy(Insert(x, s, key), f)
    decreases |s|
  {
    if |s| == 0 || key(s[|s| - 1]) <= key(x) {
    } else {
      var last := s[|s| - 1];
      var init := s[..|s| - 1];
      var r' := Insert(x, init, key);
      assert forall y :: y in init ==> y in s;
      DistinctByInsert(x, init, key, f);
      InsertPermutes(x, init, key);
      forall i | 0 <= i < |r'| ensures f(r'[i]) != f(last) {
        assert r'[i] in multiset(r');
        if r'[i] != x {
          assert r'[i] in multiset(init);
          var k :| 0 <= k < |init| && init[k] == r'[i];
          assert s[k] == init[k];
        }
      }
    }
  }

  /** Sorting keeps a sequence free of repeated `f`-values. */
  lemma {:induction false} DistinctBySort<T, K>(s: seq<T>, key: T -> real, f: T -> K)
    requires DistinctBy(s, f)
    ensures DistinctBy(SortBy(s, key), f)
  {
    if |s| > 0 {
      var init := s[..|s| - 1];
      var x := s[|s| - 1];
      DistinctBySort(init, key, f);
      SortBySortsAndPermutes(init, key);
      forall y | y in SortBy(init, key) ensures f(y) != f(x) {
        assert y in multiset(SortBy(init, key));
        var k :| 0 <= k < |init| && init[k] == y;
        assert s[k] == y;
      }
      DistinctByInsert(x, SortBy(init, key), key, f);
    }
  }
}

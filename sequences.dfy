/** Order-preserving filtering (`Array.prototype.filter`) and the model of
    `Array.prototype.sort` with a comparator. Since ES2019 that
    sort is stable; it is modelled as insertion from the right, which places
    each element after every earlier element the comparator does not rank
    above it. When the comparator is a total preorder the result is sorted
    and stable, whatever algorithm the engine actually uses; when it is not
    (the mixed numeric / non-numeric job-id comparator) the engine's order is
    unspecified, and the model only promises a permutation. */
module Sequences {

  /** No element occurs twice. */
  predicate Distinct<T(==)>(s: seq<T>) {
    forall i, j :: 0 <= i < j < |s| ==> s[i] != s[j]
  }

  /** `s.filter(p)`: the elements satisfying `p`, in their order. */
  function Keep<T(!new)>(s: seq<T>, p: T -> bool): (r: seq<T>)
    ensures |r| <= |s|
    ensures forall x :: x in r <==> x in s && p(x)
    decreases |s|
  {
    if s == [] then []
    else
      var init := s[..|s| - 1];
      assert s == init + [s[|s| - 1]];
      Keep(init, p) + (if p(s[|s| - 1]) then [s[|s| - 1]] else [])
  }

  lemma {:induction false} KeepAppend<T(!new)>(s: seq<T>, x: T, p: T -> bool)
    ensures Keep(s + [x], p) == Keep(s, p) + (if p(x) then [x] else [])
  {
    assert (s + [x])[..|s + [x]| - 1] == s;
  }

  /** Filtering twice is filtering once by the conjunction. */
  /** `Keep` over one more element of a prefix. */
  lemma KeepPrefix<T(!new)>(s: seq<T>, i: nat, p: T -> bool)
    requires i < |s|
    ensures Keep(s[..i + 1], p) == Keep(s[..i], p) + (if p(s[i]) then [s[i]] else [])
  {
    assert s[..i + 1] == s[..i] + [s[i]];
    KeepAppend(s[..i], s[i], p);
  }

  lemma {:induction false} KeepKeep<T(!new)>(s: seq<T>, p: T -> bool, q: T -> bool, pq: T -> bool)
    requires forall x :: pq(x) == (p(x) && q(x))
    ensures Keep(Keep(s, p), q) == Keep(s, pq)
    decreases |s|
  {
    if s != [] {
      var init := s[..|s| - 1];
      var x := s[|s| - 1];
      assert s == init + [x];
      KeepKeep(init, p, q, pq);
      KeepAppend(init, x, p);
      KeepAppend(init, x, pq);
      assert pq(x) == (p(x) && q(x));
      if p(x) {
        KeepAppend(Keep(init, p), x, q);
        assert Keep(Keep(s, p), q) == Keep(Keep(init, p), q) + (if q(x) then [x] else []);
      } else {
        assert Keep(s, p) == Keep(init, p);
      }
    }
  }

  /** Filters by pointwise-equal predicates agree. */
  lemma {:induction false} KeepSame<T(!new)>(s: seq<T>, p: T -> bool, q: T -> bool)
    requires forall x :: p(x) == q(x)
    ensures Keep(s, p) == Keep(s, q)
    decreases |s|
  {
    if s != [] {
      KeepSame(s[..|s| - 1], p, q);
    }
  }

  /** A filter that keeps everything changes nothing. */
  lemma {:induction false} KeepAll<T(!new)>(s: seq<T>, p: T -> bool)
    requires forall x :: x in s ==> p(x)
    ensures Keep(s, p) == s
    decreases |s|
  {
    if s != [] {
      var init := s[..|s| - 1];
      assert s == init + [s[|s| - 1]];
      KeepAll(init, p);
    }
  }

  /** A comparator that subtracts integer keys orders every sequence. */
  lemma KeyDifferenceIsPreorder<T>(s: seq<T>, cmp: (T, T) -> int, key: T -> int)
    requires forall a, b :: cmp(a, b) == key(a) - key(b)
    ensures TotalPreorderOn(s, cmp)
  {
  }

  /** Sortedness under a key-difference comparator is order of the keys. */
  lemma SortedByKey<T>(s: seq<T>, cmp: (T, T) -> int, key: T -> int)
    requires forall a, b :: cmp(a, b) == key(a) - key(b)
    requires SortedBy(s, cmp)
    ensures forall i, j :: 0 <= i < j < |s| ==> key(s[i]) <= key(s[j])
  {
    forall i, j | 0 <= i < j < |s| ensures key(s[i]) <= key(s[j]) {
      assert cmp(s[i], s[j]) <= 0;
    }
  }

  /** Inserts `x` after the longest suffix of `s` whose elements all rank
      strictly above `x` has been skipped. */
  function Insert<T>(x: T, s: seq<T>, cmp: (T, T) -> int): (r: seq<T>)
    ensures multiset(r) == multiset(s) + multiset{x}
    ensures |r| == |s| + 1
    decreases |s|
  {
    if s == [] || cmp(s[|s| - 1], x) <= 0 then s + [x]
    else
      var init := s[..|s| - 1];
      assert s == init + [s[|s| - 1]];
      Insert(x, init, cmp) + [s[|s| - 1]]
  }

  /** Stable sort of `s` under the comparator `cmp` (negative: first
      argument goes first). */
  function InsertionSort<T>(s: seq<T>, cmp: (T, T) -> int): (r: seq<T>)
    ensures multiset(r) == multiset(s)
    ensures |r| == |s|
    decreases |s|
  {
    if s == [] then []
    else
      var init := s[..|s| - 1];
      assert s == init + [s[|s| - 1]];
      Insert(s[|s| - 1], InsertionSort(init, cmp), cmp)
  }

  ghost predicate SortedBy<T>(s: seq<T>, cmp: (T, T) -> int) {
    forall i, j :: 0 <= i < j < |s| ==> cmp(s[i], s[j]) <= 0
  }

  /** `cmp` is total and transitive on the elements of `s`. */
  ghost predicate TotalPreorderOn<T>(s: seq<T>, cmp: (T, T) -> int) {
    && (forall a, b :: a in s && b in s ==> cmp(a, b) <= 0 || cmp(b, a) <= 0)
    && (forall a, b, c :: a in s && b in s && c in s && cmp(a, b) <= 0 && cmp(b, c) <= 0 ==> cmp(a, c) <= 0)
  }

  lemma TotalPreorderOnSub<T>(s: seq<T>, t: seq<T>, cmp: (T, T) -> int)
    requires TotalPreorderOn(s, cmp)
    requires forall x :: x in t ==> x in s
    ensures TotalPreorderOn(t, cmp)
  {
  }

  lemma Transitive<T>(s: seq<T>, cmp: (T, T) -> int, a: T, b: T, c: T)
    requires TotalPreorderOn(s, cmp)
    requires a in s && b in s && c in s && cmp(a, b) <= 0 && cmp(b, c) <= 0
    ensures cmp(a, c) <= 0
  {
  }

  lemma Total<T>(s: seq<T>, cmp: (T, T) -> int, a: T, b: T)
    requires TotalPreorderOn(s, cmp)
    requires a in s && b in s
    ensures cmp(a, b) <= 0 || cmp(b, a) <= 0
  {
  }

  /** Appending an element ranked no lower than the last keeps `s` sorted. */
  lemma AppendSorted<T>(s: seq<T>, x: T, cmp: (T, T) -> int)
    requires SortedBy(s, cmp)
    requires s != [] ==> cmp(s[|s| - 1], x) <= 0
    requires TotalPreorderOn(s + [x], cmp)
    ensures SortedBy(s + [x], cmp)
  {
    var all := s + [x];
    forall i | 0 <= i < |s| ensures cmp(s[i], x) <= 0 {
      var last := s[|s| - 1];
      assert s[i] in all && last in all && x in all;
      if i < |s| - 1 {
        assert cmp(s[i], last) <= 0;
        Transitive(all, cmp, s[i], last, x);
      }
    }
  }

  lemma {:induction false} InsertSorted<T>(x: T, s: seq<T>, cmp: (T, T) -> int)
    requires SortedBy(s, cmp)
    requires TotalPreorderOn(s + [x], cmp)
    ensures SortedBy(Insert(x, s, cmp), cmp)
    decreases |s|
  {
    var all := s + [x];
    if s == [] || cmp(s[|s| - 1], x) <= 0 {
      AppendSorted(s, x, cmp);
    } else {
      var init := s[..|s| - 1];
      var last := s[|s| - 1];
      assert last in all && x in all;
      Total(all, cmp, x, last);
      TotalPreorderOnSub(all, init + [x], cmp);
      InsertSorted(x, init, cmp);
      var r' := Insert(x, init, cmp);
      forall y | y in r' ensures cmp(y, last) <= 0 {
        assert y in multiset(r');
        if y != x {
          assert y in multiset(init);
          var k :| 0 <= k < |init| && init[k] == y;
          assert s[k] == init[k];
        }
      }
      AppendAboveAll(r', last, cmp);
    }
  }

  lemma AppendAboveAll<T>(s: seq<T>, x: T, cmp: (T, T) -> int)
    requires SortedBy(s, cmp)
    requires forall y :: y in s ==> cmp(y, x) <= 0
    ensures SortedBy(s + [x], cmp)
  {
    forall i, j | 0 <= i < j < |s + [x]| ensures cmp((s + [x])[i], (s + [x])[j]) <= 0 {
      if j == |s| {
        assert s[i] in s;
      }
    }
  }

  /** Under a total preorder the sort is a sorted permutation. */
  lemma {:induction false} InsertionSortSorted<T>(s: seq<T>, cmp: (T, T) -> int)
    requires TotalPreorderOn(s, cmp)
    ensures SortedBy(InsertionSort(s, cmp), cmp)
    ensures multiset(InsertionSort(s, cmp)) == multiset(s)
    decreases |s|
  {
    if s != [] {
      var init := s[..|s| - 1];
      var x := s[|s| - 1];
      assert s == init + [x];
      TotalPreorderOnSub(s, init, cmp);
      InsertionSortSorted(init, cmp);
      var r := InsertionSort(init, cmp);
      forall y | y in r + [x] ensures y in s {
        if y != x {
          assert y in multiset(r);
        }
      }
      TotalPreorderOnSub(s, r + [x], cmp);
      InsertSorted(x, r, cmp);
    }
  }

  /** The elements of `s` whose key is `k`, in order. */
  function WithKey<T>(s: seq<T>, key: T -> int, k: int): (r: seq<T>)
    ensures forall x :: x in r ==> x in s && key(x) == k
    decreases |s|
  {
    if s == [] then []
    else
      var init := s[..|s| - 1];
      assert s == init + [s[|s| - 1]];
      WithKey(init, key, k) + (if key(s[|s| - 1]) == k then [s[|s| - 1]] else [])
  }

  lemma {:induction false} WithKeyAppend<T>(s: seq<T>, x: T, key: T -> int, k: int)
    ensures WithKey(s + [x], key, k) == WithKey(s, key, k) + (if key(x) == k then [x] else [])
  {
    assert (s + [x])[..|s + [x]| - 1] == s;
  }

  lemma {:induction false} InsertWithKey<T>(x: T, s: seq<T>, cmp: (T, T) -> int, key: T -> int, k: int)
    requires forall a, b :: cmp(a, b) == key(a) - key(b)
    ensures WithKey(Insert(x, s, cmp), key, k) == WithKey(s, key, k) + (if key(x) == k then [x] else [])
    decreases |s|
  {
    if s == [] || cmp(s[|s| - 1], x) <= 0 {
      WithKeyAppend(s, x, key, k);
    } else {
      InsertWithKey(x, s[..|s| - 1], cmp, key, k);
      InsertWithKeyPast(x, s, cmp, key, k);
    }
  }

  /** The step of `InsertWithKey` when `x` goes before the last element,
      whose key is then larger. */
  lemma InsertWithKeyPast<T>(x: T, s: seq<T>, cmp: (T, T) -> int, key: T -> int, k: int)
    requires forall a, b :: cmp(a, b) == key(a) - key(b)
    requires s != [] && cmp(s[|s| - 1], x) > 0
    requires WithKey(Insert(x, s[..|s| - 1], cmp), key, k) == WithKey(s[..|s| - 1], key, k) + (if key(x) == k then [x] else [])
    ensures WithKey(Insert(x, s, cmp), key, k) == WithKey(s, key, k) + (if key(x) == k then [x] else [])
  {
    var init := s[..|s| - 1];
    var last := s[|s| - 1];
    var xs := if key(x) == k then [x] else [];
    var ls := if key(last) == k then [last] else [];
    assert s == init + [last];
    assert Insert(x, s, cmp) == Insert(x, init, cmp) + [last];
    WithKeyAppend(Insert(x, init, cmp), last, key, k);
    WithKeyAppend(init, last, key, k);
    assert xs == [] || ls == [] by {
      assert key(last) > key(x);
    }
    AppendEither(WithKey(init, key, k), xs, ls);
  }

  /** Two sequences of which one is empty append in either order. */
  lemma AppendEither<T>(w: seq<T>, a: seq<T>, b: seq<T>)
    requires a == [] || b == []
    ensures w + a + b == w + b + a
  {
    if a == [] {
      assert w + a == w && w + b + a == w + b;
    } else {
      assert w + b == w && w + a + b == w + a;
    }
  }

  /** Stability: when the comparator is a difference of integer keys, the
      elements sharing any one key keep their relative order. */
  lemma {:induction false} InsertionSortStable<T>(s: seq<T>, cmp: (T, T) -> int, key: T -> int, k: int)
    requires forall a, b :: cmp(a, b) == key(a) - key(b)
    ensures WithKey(InsertionSort(s, cmp), key, k) == WithKey(s, key, k)
    decreases |s|
  {
    if s != [] {
      var init := s[..|s| - 1];
      var x := s[|s| - 1];
      assert s == init + [x];
      InsertionSortStable(init, cmp, key, k);
      InsertWithKey(x, InsertionSort(init, cmp), cmp, key, k);
      WithKeyAppend(init, x, key, k);
    }
  }
}

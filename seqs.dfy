/** Generic operations over lists of records: the comprehensions, sums, sorts
    and dictionary comprehensions the tracker writes inline, each defined once
    with the property that makes it what it is. */
module Seqs {

  // ---------------------------------------------------------------------------
  // Filtering: `[x for x in s if p(x)]`
  // ---------------------------------------------------------------------------

  /** `r` is `s` with some elements left out, in the same order. */
  ghost predicate SubseqOf<T>(r: seq<T>, s: seq<T>)
    decreases |s|
  {
    if r == [] then true
    else if s == [] then false
    else (r[0] == s[0] && SubseqOf(r[1..], s[1..])) || SubseqOf(r, s[1..])
  }

  /** `r` keeps exactly the elements of `s` that satisfy `p`, in their original
      order: nothing else, and every occurrence of those. */
  ghost predicate IsFilter<T>(r: seq<T>, s: seq<T>, p: T -> bool) {
    && SubseqOf(r, s)
    && (forall i :: 0 <= i < |r| ==> p(r[i]))
    && (forall i :: 0 <= i < |s| && p(s[i]) ==> multiset(r)[s[i]] == multiset(s)[s[i]])
  }

  function Keep<T(==)>(s: seq<T>, p: T -> bool): (r: seq<T>)
    ensures IsFilter(r, s, p)
    ensures |r| <= |s|
    decreases |s|
  {
    if s == [] then []
    else
      var rest := Keep(s[1..], p);
      if p(s[0]) then
        KeepKeptStep(s, rest, p);
        [s[0]] + rest
      else
        KeepDroppedStep(s, rest, p);
        rest
  }

  /** A kept head in front of the filter of the tail is the filter. */
  lemma KeepKeptStep<T>(s: seq<T>, rest: seq<T>, p: T -> bool)
    requires s != [] && p(s[0]) && IsFilter(rest, s[1..], p)
    ensures IsFilter([s[0]] + rest, s, p)
  {
    var r := [s[0]] + rest;
    assert s == [s[0]] + s[1..];
    assert r[1..] == rest;
    forall i | 0 <= i < |s| && p(s[i]) ensures multiset(r)[s[i]] == multiset(s)[s[i]] {
      KeepCount(s[1..], rest, p, s[i]);
    }
  }

  /** Past a dropped head the filter of the tail is the filter. */
  lemma KeepDroppedStep<T>(s: seq<T>, rest: seq<T>, p: T -> bool)
    requires s != [] && !p(s[0]) && IsFilter(rest, s[1..], p)
    ensures IsFilter(rest, s, p)
  {
    assert s == [s[0]] + s[1..];
    forall i | 0 <= i < |s| && p(s[i]) ensures multiset(rest)[s[i]] == multiset(s)[s[i]] {
      assert i > 0 && s[i] == s[1..][i - 1];
    }
  }

  /** Counting step for Keep: a kept value occurs as often in the filter as in
      the list, whether or not it occurs in the list at all. */
  lemma KeepCount<T>(s: seq<T>, r: seq<T>, p: T -> bool, y: T)
    requires IsFilter(r, s, p) && p(y)
    ensures multiset(r)[y] == multiset(s)[y]
  {
    if y !in s {
      SubseqMultiset(r, s);
    } else {
      var j :| 0 <= j < |s| && s[j] == y;
    }
  }

  lemma SubseqMultiset<T>(r: seq<T>, s: seq<T>)
    requires SubseqOf(r, s)
    ensures multiset(r) <= multiset(s)
    decreases |s|
  {
    if r != [] {
      assert s == [s[0]] + s[1..];
      if r[0] == s[0] && SubseqOf(r[1..], s[1..]) {
        SubseqMultiset(r[1..], s[1..]);
        assert r == [r[0]] + r[1..];
      } else {
        SubseqMultiset(r, s[1..]);
      }
    }
  }

  lemma SubseqMultisetIf<T>(r: seq<T>, s: seq<T>)
    ensures SubseqOf(r, s) ==> multiset(r) <= multiset(s)
  {
    if SubseqOf(r, s) {
      SubseqMultiset(r, s);
    }
  }

  /** The filter specification determines its result: two lists that both keep
      exactly the `p`-elements of `s` in order are equal. */
  lemma {:induction false} FilterUnique<T>(r1: seq<T>, r2: seq<T>, s: seq<T>, p: T -> bool)
    requires IsFilter(r1, s, p) && IsFilter(r2, s, p)
    ensures r1 == r2
    decreases |s|
  {
    if s == [] {
      assert r1 == [] && r2 == [];
    } else {
      var x := s[0];
      assert s == [x] + s[1..];
      FilterStep(r1, s, p);
      FilterStep(r2, s, p);
      if p(x) {
        FilterUnique(r1[1..], r2[1..], s[1..], p);
        assert r1 == [x] + r1[1..] && r2 == [x] + r2[1..];
      } else {
        FilterUnique(r1, r2, s[1..], p);
      }
    }
  }

  /** How a filter of a non-empty list decomposes at its head. */
  lemma FilterStep<T>(r: seq<T>, s: seq<T>, p: T -> bool)
    requires s != [] && IsFilter(r, s, p)
    ensures p(s[0]) ==> r != [] && r[0] == s[0] && IsFilter(r[1..], s[1..], p)
    ensures !p(s[0]) ==> IsFilter(r, s[1..], p)
  {
    var x := s[0];
    assert s == [x] + s[1..];
    if p(x) {
      assert multiset(r)[x] == multiset(s)[x] >= 1;
      assert r != [];
      SubseqMultisetIf(r, s[1..]);
      assert multiset(s[1..])[x] == multiset(s)[x] - 1;
      assert !SubseqOf(r, s[1..]);
      assert r == [r[0]] + r[1..];
      forall i | 0 <= i < |s[1..]| && p(s[1..][i])
        ensures multiset(r[1..])[s[1..][i]] == multiset(s[1..])[s[1..][i]]
      {
        assert s[1..][i] == s[i + 1];
      }
      forall i | 0 <= i < |r[1..]| ensures p(r[1..][i]) {
        assert r[1..][i] == r[i + 1];
      }
    } else {
      if r != [] && r[0] == x {
        assert false;
      }
      assert SubseqOf(r, s[1..]);
    }
  }

  lemma KeepConcat<T>(a: seq<T>, b: seq<T>, p: T -> bool)
    ensures Keep(a + b, p) == Keep(a, p) + Keep(b, p)
    decreases |a|
  {
    if a != [] {
      assert (a + b)[1..] == a[1..] + b;
      KeepConcat(a[1..], b, p);
    } else {
      assert a + b == b;
    }
  }

  /** Filtering a list whose elements all pass keeps all of it. */
  lemma KeepAll<T>(s: seq<T>, p: T -> bool)
    requires forall i :: 0 <= i < |s| ==> p(s[i])
    ensures Keep(s, p) == s
    decreases |s|
  {
    if s != [] {
      KeepAll(s[1..], p);
    }
  }

  lemma KeepIdempotent<T>(s: seq<T>, p: T -> bool)
    ensures Keep(Keep(s, p), p) == Keep(s, p)
  {
    KeepAll(Keep(s, p), p);
  }

  /** Filters with pointwise equal conditions agree. */
  lemma KeepSame<T>(s: seq<T>, p: T -> bool, q: T -> bool)
    requires forall x :: p(x) == q(x)
    ensures Keep(s, p) == Keep(s, q)
    decreases |s|
  {
    if s != [] {
      KeepSame(s[1..], p, q);
    }
  }

  /** Filtering twice is filtering once by both conditions. */
  lemma KeepKeep<T>(s: seq<T>, p: T -> bool, q: T -> bool, pq: T -> bool)
    requires forall x :: pq(x) == (p(x) && q(x))
    ensures Keep(Keep(s, p), q) == Keep(s, pq)
    decreases |s|
  {
    if s != [] {
      KeepKeep(s[1..], p, q, pq);
    }
  }

  /** A filter that nothing passes is empty. */
  lemma KeepNone<T>(s: seq<T>, p: T -> bool)
    requires forall i :: 0 <= i < |s| ==> !p(s[i])
    ensures Keep(s, p) == []
  {
    var r := Keep(s, p);
    SubseqMultiset(r, s);
  }

  /** `[f(x) for x in s]`. */
  function MapSeq<T, U>(s: seq<T>, f: T -> U): (r: seq<U>)
    ensures |r| == |s|
    ensures forall i :: 0 <= i < |s| ==> r[i] == f(s[i])
  {
    seq(|s|, i requires 0 <= i < |s| => f(s[i]))
  }

  /** Mapping one more element of a prefix appends its image. */
  lemma MapSeqPrefix<T, U>(s: seq<T>, f: T -> U, i: int)
    requires 0 <= i < |s|
    ensures MapSeq(s[..i + 1], f) == MapSeq(s[..i], f) + [f(s[i])]
  {
  }

  // ---------------------------------------------------------------------------
  // Sums: `sum(f(x) for x in s)`
  // ---------------------------------------------------------------------------

  function SumOf<T>(s: seq<T>, f: T -> int): int
    decreases |s|
  {
    if s == [] then 0 else f(s[0]) + SumOf(s[1..], f)
  }

  lemma SumConcat<T>(a: seq<T>, b: seq<T>, f: T -> int)
    ensures SumOf(a + b, f) == SumOf(a, f) + SumOf(b, f)
    decreases |a|
  {
    if a != [] {
      assert (a + b)[1..] == a[1..] + b;
      SumConcat(a[1..], b, f);
    } else {
      assert a + b == b;
    }
  }

  /** Splitting a list by a condition and its negation splits its sum. */
  lemma {:induction false} SumPartition<T>(s: seq<T>, p: T -> bool, notP: T -> bool, f: T -> int)
    requires forall x :: notP(x) == !p(x)
    ensures SumOf(Keep(s, p), f) + SumOf(Keep(s, notP), f) == SumOf(s, f)
    decreases |s|
  {
    if s != [] {
      SumPartition(s[1..], p, notP, f);
      var a, b := Keep(s[1..], p), Keep(s[1..], notP);
      if p(s[0]) {
        assert Keep(s, p) == [s[0]] + a;
        assert SumOf([s[0]] + a, f) == f(s[0]) + SumOf(a, f) by {
          assert ([s[0]] + a)[1..] == a;
        }
      } else {
        assert Keep(s, notP) == [s[0]] + b;
        assert SumOf([s[0]] + b, f) == f(s[0]) + SumOf(b, f) by {
          assert ([s[0]] + b)[1..] == b;
        }
      }
    }
  }

  function One<T>(x: T): int { 1 }

  /** Summing 1 per element counts the elements. */
  lemma SumOne<T>(s: seq<T>)
    ensures SumOf(s, One) == |s|
    decreases |s|
  {
    if s != [] {
      SumOne(s[1..]);
    }
  }

  /** The sum over the keys `ks` of the sum of the elements with each key:
      a grouped sum, as a per-key dictionary of totals adds up. */
  /** `sum(f(x) for x in s if key(x) == k)`. */
  function SumWhere<T>(s: seq<T>, key: T -> int, k: int, f: T -> int): int
    decreases |s|
  {
    if s == [] then 0 else (if key(s[0]) == k then f(s[0]) else 0) + SumWhere(s[1..], key, k, f)
  }

  /** Summing where the key matches is summing over the filter on the key. */
  lemma {:induction false} SumWhereKeep<T>(s: seq<T>, key: T -> int, k: int, f: T -> int)
    ensures SumWhere(s, key, k, f) == SumOf(Keep(s, KeyIs(key, k)), f)
    decreases |s|
  {
    if s != [] {
      SumWhereKeep(s[1..], key, k, f);
    }
  }

  /** One more element adds its value to the sum exactly when its key matches. */
  lemma {:induction false} SumWhereSnoc<T>(s: seq<T>, x: T, key: T -> int, k: int, f: T -> int)
    ensures SumWhere(s + [x], key, k, f) == SumWhere(s, key, k, f) + (if key(x) == k then f(x) else 0)
    decreases |s|
  {
    if s == [] {
      assert [x][1..] == [];
    } else {
      assert (s + [x])[1..] == s[1..] + [x];
      SumWhereSnoc(s[1..], x, key, k, f);
    }
  }

  /** With no element of key `k` the sum is zero. */
  lemma {:induction false} SumWhereNone<T>(s: seq<T>, key: T -> int, k: int, f: T -> int)
    requires forall i :: 0 <= i < |s| ==> key(s[i]) != k
    ensures SumWhere(s, key, k, f) == 0
    decreases |s|
  {
    if s != [] {
      assert key(s[0]) != k;
      SumWhereNone(s[1..], key, k, f);
    }
  }

  function SumByKeys<T(==)>(s: seq<T>, key: T -> int, ks: seq<int>, f: T -> int): int
    decreases |ks|
  {
    if ks == [] then 0
    else SumOf(Keep(s, KeyIs(key, ks[0])), f) + SumByKeys(s, key, ks[1..], f)
  }

  lemma SumByKeysEmpty<T>(key: T -> int, ks: seq<int>, f: T -> int)
    ensures SumByKeys([], key, ks, f) == 0
    decreases |ks|
  {
    if ks != [] {
      SumByKeysEmpty(key, ks[1..], f);
    }
  }

  /** Adding an element adds its value when its key is among the distinct
      keys `ks`, and nothing otherwise. */
  lemma {:induction false} SumByKeysCons<T>(x: T, s: seq<T>, key: T -> int, ks: seq<int>, f: T -> int)
    requires StrictlyIncreasing(ks)
    ensures SumByKeys([x] + s, key, ks, f) == SumByKeys(s, key, ks, f) + (if key(x) in ks then f(x) else 0)
    decreases |ks|
  {
    if ks != [] {
      assert StrictlyIncreasing(ks[1..]);
      SumByKeysCons(x, s, key, ks[1..], f);
      var p := KeyIs(key, ks[0]);
      var a, b := Keep(s, p), Keep([x] + s, p);
      assert ([x] + s)[1..] == s;
      assert SumOf(b, f) == SumOf(a, f) + (if p(x) then f(x) else 0) by {
        if p(x) {
          assert b == [x] + a;
          assert ([x] + a)[1..] == a;
        }
      }
      assert key(x) in ks <==> p(x) || key(x) in ks[1..] by {
        assert ks == [ks[0]] + ks[1..];
      }
      assert p(x) ==> key(x) !in ks[1..];
    }
  }

  /** Grouping by key over a list of distinct keys covering every element
      loses and duplicates nothing: the per-key totals add up to the total. */
  lemma {:induction false} SumByKeysTotal<T>(s: seq<T>, key: T -> int, ks: seq<int>, f: T -> int)
    requires StrictlyIncreasing(ks)
    requires forall i :: 0 <= i < |s| ==> key(s[i]) in ks
    ensures SumByKeys(s, key, ks, f) == SumOf(s, f)
    decreases |s|
  {
    if s == [] {
      SumByKeysEmpty(key, ks, f);
    } else {
      assert s == [s[0]] + s[1..];
      SumByKeysTotal(s[1..], key, ks, f);
      SumByKeysCons(s[0], s[1..], key, ks, f);
    }
  }

  // ---------------------------------------------------------------------------
  // Stable sorting: `sorted(s, key=key)`
  // ---------------------------------------------------------------------------

  ghost predicate SortedBy<T>(s: seq<T>, key: T -> int) {
    forall i, j :: 0 <= i < j < |s| ==> key(s[i]) <= key(s[j])
  }

  /** Insert `x` before the first element whose key is not smaller. */
  function InsertBy<T(==)>(x: T, s: seq<T>, key: T -> int): (r: seq<T>)
    requires SortedBy(s, key)
    ensures SortedBy(r, key)
    ensures multiset(r) == multiset(s) + multiset{x}
    ensures |r| == |s| + 1
    decreases |s|
  {
    if s == [] then [x]
    else if key(x) <= key(s[0]) then [x] + s
    else
      var rest := InsertBy(x, s[1..], key);
      assert s == [s[0]] + s[1..];
      forall i | 0 <= i < |rest| ensures key(s[0]) <= key(rest[i]) {
        var y := rest[i];
        assert y in multiset(rest);
        if y != x {
          assert y in multiset(s[1..]);
          var j :| 0 <= j < |s[1..]| && s[1..][j] == y;
          assert s[1..][j] == s[j + 1];
        }
      }
      [s[0]] + rest
  }

  /** `sorted(s, key=key)`: Python's sort is stable, and so is this one. */
  function SortBy<T(==)>(s: seq<T>, key: T -> int): (r: seq<T>)
    ensures SortedBy(r, key)
    ensures multiset(r) == multiset(s)
    ensures |r| == |s|
    decreases |s|
  {
    if s == [] then []
    else
      assert s == [s[0]] + s[1..];
      InsertBy(s[0], SortBy(s[1..], key), key)
  }

  /** The condition "has key `k`". */
  function KeyIs<T>(key: T -> int, k: int): T -> bool {
    x => key(x) == k
  }

  lemma KeepInsertBy<T>(x: T, s: seq<T>, key: T -> int, k: int)
    requires SortedBy(s, key)
    ensures Keep(InsertBy(x, s, key), KeyIs(key, k))
         == if key(x) == k then [x] + Keep(s, KeyIs(key, k)) else Keep(s, KeyIs(key, k))
    decreases |s|
  {
    if s != [] && key(x) > key(s[0]) {
      KeepInsertBy(x, s[1..], key, k);
    }
  }

  /** Stability: among elements with equal keys, the sort keeps the original
      order. Together with SortedBy this determines the sorted list. */
  lemma {:induction false} SortByStable<T>(s: seq<T>, key: T -> int, k: int)
    ensures Keep(SortBy(s, key), KeyIs(key, k)) == Keep(s, KeyIs(key, k))
    decreases |s|
  {
    if s != [] {
      SortByStable(s[1..], key, k);
      KeepInsertBy(s[0], SortBy(s[1..], key), key, k);
    }
  }

  lemma SumInsertBy<T>(x: T, s: seq<T>, key: T -> int, f: T -> int)
    requires SortedBy(s, key)
    ensures SumOf(InsertBy(x, s, key), f) == f(x) + SumOf(s, f)
    decreases |s|
  {
    if s != [] && key(x) > key(s[0]) {
      SumInsertBy(x, s[1..], key, f);
      var rest := InsertBy(x, s[1..], key);
      assert ([s[0]] + rest)[1..] == rest;
    } else if s != [] {
      assert ([x] + s)[1..] == s;
    }
  }

  /** Sorting does not change a sum. */
  lemma {:induction false} SumSortBy<T>(s: seq<T>, key: T -> int, f: T -> int)
    ensures SumOf(SortBy(s, key), f) == SumOf(s, f)
    decreases |s|
  {
    if s != [] {
      SumSortBy(s[1..], key, f);
      SumInsertBy(s[0], SortBy(s[1..], key), key, f);
    }
  }

  // ---------------------------------------------------------------------------
  // `sorted(set(xs))`: distinct values in increasing order
  // ---------------------------------------------------------------------------

  ghost predicate StrictlyIncreasing(s: seq<int>) {
    forall i, j :: 0 <= i < j < |s| ==> s[i] < s[j]
  }

  ghost predicate StrictlyDecreasing(s: seq<int>) {
    forall i, j :: 0 <= i < j < |s| ==> s[i] > s[j]
  }

  function InsertDistinct(x: int, s: seq<int>): (r: seq<int>)
    requires StrictlyIncreasing(s)
    ensures StrictlyIncreasing(r)
    ensures forall y :: y in r <==> y == x || y in s
    decreases |s|
  {
    if s == [] then [x]
    else if x < s[0] then [x] + s
    else if x == s[0] then s
    else
      var rest := InsertDistinct(x, s[1..]);
      assert forall y :: y in s[1..] ==> s[0] < y;
      assert forall k :: 0 <= k < |rest| ==> rest[k] in rest;
      var r := [s[0]] + rest;
      assert forall k :: 0 < k < |r| ==> r[k] == rest[k - 1];
      r
  }

  function SortedDistinct(xs: seq<int>): (r: seq<int>)
    ensures StrictlyIncreasing(r)
    ensures forall y :: y in r <==> y in xs
    decreases |xs|
  {
    if xs == [] then []
    else
      assert xs == [xs[0]] + xs[1..];
      InsertDistinct(xs[0], SortedDistinct(xs[1..]))
  }

  function Reverse<T>(s: seq<T>): (r: seq<T>)
    ensures |r| == |s|
    ensures forall i :: 0 <= i < |s| ==> r[i] == s[|s| - 1 - i]
    decreases |s|
  {
    if s == [] then [] else Reverse(s[1..]) + [s[0]]
  }

  /** `sorted(set(xs), reverse=True)`. */
  function DescendingDistinct(xs: seq<int>): (r: seq<int>)
    ensures StrictlyDecreasing(r)
    ensures forall y :: y in r <==> y in xs
    ensures |r| == 0 <==> |xs| == 0
  {
    var up := SortedDistinct(xs);
    var r := Reverse(up);
    assert forall y :: y in r <==> y in up by {
      forall y ensures y in r <==> y in up {
        if y in up {
          var i :| 0 <= i < |up| && up[i] == y;
          assert r[|up| - 1 - i] == y;
        }
      }
    }
    assert |xs| > 0 ==> xs[0] in r;
    r
  }

  // ---------------------------------------------------------------------------
  // Dictionary comprehension: `{key(x): val(x) for x in s}`
  // ---------------------------------------------------------------------------

  /** Later elements overwrite earlier ones with the same key. */
  function IndexBy<T, K(==), V>(s: seq<T>, key: T -> K, val: T -> V): (m: map<K, V>)
    ensures IndexedBy(m, s, key, val)
    decreases |s|
  {
    if s == [] then map[]
    else
      var init := s[..|s| - 1];
      IndexByStep(IndexBy(init, key, val), s, key, val);
      IndexBy(init, key, val)[key(s[|s| - 1]) := val(s[|s| - 1])]
  }

  /** `m` has one key per element's key, and the value of the last element
      with each key. */
  ghost predicate IndexedBy<T, K, V>(m: map<K, V>, s: seq<T>, key: T -> K, val: T -> V) {
    && m.Keys == (set i | 0 <= i < |s| :: key(s[i]))
    && forall i :: 0 <= i < |s| && (forall j :: i < j < |s| ==> key(s[j]) != key(s[i]))
         ==> key(s[i]) in m && m[key(s[i])] == val(s[i])
  }

  /** Writing the last element over the dictionary of the others. */
  lemma IndexByStep<T, K, V>(m: map<K, V>, s: seq<T>, key: T -> K, val: T -> V)
    requires s != [] && IndexedBy(m, s[..|s| - 1], key, val)
    ensures IndexedBy(m[key(s[|s| - 1]) := val(s[|s| - 1])], s, key, val)
  {
    var init := s[..|s| - 1];
    assert forall i :: 0 <= i < |init| ==> init[i] == s[i];
  }
}

/** Counting, summing and filtering folds over sequences. They are left folds
    (the last element is combined last), the way `Array.prototype.reduce` and
    `filter(...).length` evaluate them in the pages, plus the one rounding rule
    the pages apply to percentages. */
module Folds {
  import opened Common

  /** The number of elements of `s` that satisfy `p` (`s.filter(p).length`). */
  function Count<T>(s: seq<T>, p: T -> bool): (n: nat)
    ensures n <= |s|
    ensures n == 0 <==> (forall i :: 0 <= i < |s| ==> !p(s[i]))
    ensures n == |s| <==> (forall i :: 0 <= i < |s| ==> p(s[i]))
  {
    if s == [] then 0
    else
      var init := s[..|s| - 1];
      assert forall i :: 0 <= i < |init| ==> init[i] == s[i];
      Count(init, p) + (if p(s[|s| - 1]) then 1 else 0)
  }

  /** The elements of `s` that satisfy `p`, in their original order. */
  function Filter<T>(s: seq<T>, p: T -> bool): (r: seq<T>)
    ensures |r| == Count(s, p)
    ensures forall i :: 0 <= i < |r| ==> p(r[i])
    ensures forall i :: 0 <= i < |s| && p(s[i]) ==> s[i] in r
    ensures multiset(r) <= multiset(s)
  {
    if s == [] then []
    else
      var init := s[..|s| - 1];
      assert s == init + [s[|s| - 1]];
      Filter(init, p) + (if p(s[|s| - 1]) then [s[|s| - 1]] else [])
  }

  /** `s.reduce((sum, x) => sum + f(x), 0)`. */
  function Sum<T>(s: seq<T>, f: T -> real): real
  {
    if s == [] then 0.0 else Sum(s[..|s| - 1], f) + f(s[|s| - 1])
  }

  /** The number of elements of `s` whose key is `k`. */
  function CountKey<T, K(==)>(s: seq<T>, key: T -> K, k: K): nat
  {
    if s == [] then 0
    else CountKey(s[..|s| - 1], key, k) + (if key(s[|s| - 1]) == k then 1 else 0)
  }

  /** The elements of `s` whose key is `k`, in their original order. */
  function FilterKey<T, K(==)>(s: seq<T>, key: T -> K, k: K): (r: seq<T>)
    ensures |r| == CountKey(s, key, k)
    ensures forall i :: 0 <= i < |r| ==> key(r[i]) == k
    ensures forall i :: 0 <= i < |s| && key(s[i]) == k ==> s[i] in r
    ensures multiset(r) <= multiset(s)
  {
    if s == [] then []
    else
      var init := s[..|s| - 1];
      assert s == init + [s[|s| - 1]];
      FilterKey(init, key, k) + (if key(s[|s| - 1]) == k then [s[|s| - 1]] else [])
  }

  /** The sum of `f` over the elements of `s` whose key is `k`. */
  function SumKey<T, K(==)>(s: seq<T>, key: T -> K, k: K, f: T -> real): real
  {
    if s == [] then 0.0
    else SumKey(s[..|s| - 1], key, k, f) + (if key(s[|s| - 1]) == k then f(s[|s| - 1]) else 0.0)
  }

  /** The number of elements of `s` whose key is one of `ks`. */
  function CountKeyIn<T, K(==)>(s: seq<T>, key: T -> K, ks: seq<K>): nat
  {
    if s == [] then 0
    else CountKeyIn(s[..|s| - 1], key, ks) + (if key(s[|s| - 1]) in ks then 1 else 0)
  }

  /** The sum of `f` over the elements of `s` whose key is one of `ks`. */
  function SumKeyIn<T, K(==)>(s: seq<T>, key: T -> K, ks: seq<K>, f: T -> real): real
  {
    if s == [] then 0.0
    else SumKeyIn(s[..|s| - 1], key, ks, f) + (if key(s[|s| - 1]) in ks then f(s[|s| - 1]) else 0.0)
  }

  /** The sizes of the buckets `ks[0]`, `ks[1]`, ... added up. */
  function BucketCount<T, K(==)>(s: seq<T>, key: T -> K, ks: seq<K>): nat
  {
    if ks == [] then 0
    else BucketCount(s, key, ks[..|ks| - 1]) + CountKey(s, key, ks[|ks| - 1])
  }

  /** The bucket sums for the keys `ks[0]`, `ks[1]`, ... added up. */
  function BucketSum<T, K(==)>(s: seq<T>, key: T -> K, ks: seq<K>, f: T -> real): real
  {
    if ks == [] then 0.0
    else BucketSum(s, key, ks[..|ks| - 1], f) + SumKey(s, key, ks[|ks| - 1], f)
  }

  /** No key occurs twice in `ks`. */
  predicate Distinct<K(==)>(ks: seq<K>)
  {
    forall i, j :: 0 <= i < j < |ks| ==> ks[i] != ks[j]
  }

  /** `Math.round(100 * part / whole)` for `0 <= part <= whole` and `whole > 0`:
      the integer nearest to `100 * part / whole`, halves rounded up, stated
      without division as `r - 1/2 <= 100 * part / whole < r + 1/2`. */
  function RoundedPercent(part: nat, whole: nat): (r: nat)
    requires part <= whole && 0 < whole
    ensures r <= 100
    ensures (2 * r - 1) * whole <= 200 * part < (2 * r + 1) * whole
  {
    var q := (200 * part + whole) / (2 * whole);
    PercentBounds(part, whole, q, (200 * part + whole) % (2 * whole));
    q
  }

  /** The whole rounds to 100 and nothing rounds to 0. */
  lemma PercentExtremes(part: nat, whole: nat)
    requires part <= whole && 0 < whole
    ensures part == whole ==> RoundedPercent(part, whole) == 100
    ensures part == 0 ==> RoundedPercent(part, whole) == 0
  {
    var r := RoundedPercent(part, whole);
    if part == whole && r < 100 {
      MulMono(2 * r + 1, 199, whole);
      assert false;
    }
    if part == 0 && r > 0 {
      MulMono(1, 2 * r - 1, whole);
      assert false;
    }
  }

  lemma MulMono(a: int, b: int, c: nat)
    requires a <= b
    ensures a * c <= b * c
  {
    assert b * c - a * c == (b - a) * c;
  }

  lemma PercentBounds(part: nat, whole: nat, q: int, m: int)
    requires part <= whole && 0 < whole
    requires (2 * whole) * q + m == 200 * part + whole && 0 <= m < 2 * whole
    ensures 0 <= q <= 100
    ensures (2 * q - 1) * whole <= 200 * part < (2 * q + 1) * whole
  {
    assert (2 * q - 1) * whole == (2 * whole) * q - whole;
    assert (2 * q + 1) * whole == (2 * whole) * q + whole;
  }

  // ---------------------------------------------------------------------
  // Algebra of the folds

  lemma {:induction false} CountAppend<T>(s: seq<T>, t: seq<T>, p: T -> bool)
    ensures Count(s + t, p) == Count(s, p) + Count(t, p)
    decreases |t|
  {
    if t != [] {
      var t' := t[..|t| - 1];
      assert (s + t)[..|s + t| - 1] == s + t';
      CountAppend(s, t', p);
    } else {
      assert s + t == s;
    }
  }

  lemma {:induction false} SumAppend<T>(s: seq<T>, t: seq<T>, f: T -> real)
    ensures Sum(s + t, f) == Sum(s, f) + Sum(t, f)
    decreases |t|
  {
    if t != [] {
      var t' := t[..|t| - 1];
      assert (s + t)[..|s + t| - 1] == s + t';
      SumAppend(s, t', f);
    } else {
      assert s + t == s;
    }
  }

  /** The count over a list is the count before position `k`, the element at
      `k`, and the count after it. */
  lemma CountAround<T>(s: seq<T>, k: int, p: T -> bool)
    requires 0 <= k < |s|
    ensures Count(s, p) == Count(s[..k], p) + (if p(s[k]) then 1 else 0) + Count(s[k + 1..], p)
  {
    var a, b := s[..k], s[k + 1..];
    assert s == (a + [s[k]]) + b;
    CountPush(a, s[k], p);
    CountAppend(a + [s[k]], b, p);
  }

  lemma CountPush<T>(s: seq<T>, x: T, p: T -> bool)
    ensures Count(s + [x], p) == Count(s, p) + (if p(x) then 1 else 0)
  {
    assert (s + [x])[..|s|] == s;
  }

  lemma {:induction false} FilterAppend<T>(s: seq<T>, t: seq<T>, p: T -> bool)
    ensures Filter(s + t, p) == Filter(s, p) + Filter(t, p)
    decreases |t|
  {
    if t != [] {
      var t' := t[..|t| - 1];
      assert (s + t)[..|s + t| - 1] == s + t';
      FilterAppend(s, t', p);
    } else {
      assert s + t == s;
    }
  }

  /** One more element adds `f` of it to the sum of the filtered elements when it passes `p`. */
  lemma SumFilterPush<T>(s: seq<T>, x: T, p: T -> bool, f: T -> real)
    ensures Sum(Filter(s + [x], p), f) == Sum(Filter(s, p), f) + (if p(x) then f(x) else 0.0)
  {
    FilterAppend(s, [x], p);
    assert Filter([x], p) == Filter([], p) + (if p(x) then [x] else []) by {
      assert [x][..0] == [];
    }
    SumAppend(Filter(s, p), Filter([x], p), f);
    assert Sum([x], f) == f(x) by {
      assert [x][..0] == [];
    }
  }

  /** One more element that fails `p` changes neither the count nor the list
      of the kept elements that pass `p`. */
  lemma PushFailing<T>(s: seq<T>, x: T, keep: T -> bool, p: T -> bool)
    requires !p(x)
    ensures Count(Filter(s + [x], keep), p) == Count(Filter(s, keep), p)
    ensures Filter(Filter(s + [x], keep), p) == Filter(Filter(s, keep), p)
  {
    FilterAppend(s, [x], keep);
    FilterOne(x, keep);
    FilterOne(x, p);
    var kept := Filter(s, keep);
    FilterAppend(kept, Filter([x], keep), p);
    assert Filter(Filter(s + [x], keep), p) == Filter(kept, p);
  }

  lemma SplitLast<T>(s: seq<T>)
    requires s != []
    ensures s == s[..|s| - 1] + [s[|s| - 1]]
  {
  }

  /** A single element is kept exactly when it passes. */
  lemma FilterOne<T>(x: T, p: T -> bool)
    ensures Filter([x], p) == if p(x) then [x] else []
  {
    assert [x][..0] == [];
  }

  /** Keeping only the elements that pass `p` keeps all of `s` when all pass. */
  lemma {:induction false} FilterAll<T>(s: seq<T>, p: T -> bool)
    requires forall i :: 0 <= i < |s| ==> p(s[i])
    ensures Filter(s, p) == s
  {
    if s != [] {
      var init := s[..|s| - 1];
      assert forall i :: 0 <= i < |init| ==> p(init[i]) by {
        forall i | 0 <= i < |init|
          ensures p(init[i])
        {
          assert init[i] == s[i];
        }
      }
      FilterAll(init, p);
      SplitLast(s);
    }
  }

  /** ... and none of `s` when none pass. */
  lemma FilterNone<T>(s: seq<T>, p: T -> bool)
    requires forall i :: 0 <= i < |s| ==> !p(s[i])
    ensures Filter(s, p) == []
  {
  }

  lemma SumTwo<T>(x: T, y: T, f: T -> real)
    ensures Sum([x, y], f) == f(x) + f(y)
  {
    assert [x, y][..1] == [x];
    assert [x][..0] == [];
    assert Sum([x], f) == f(x);
  }

  /** Summing the filtered elements is summing `f` where `p` holds and 0 elsewhere. */
  lemma {:induction false} SumFilter<T>(s: seq<T>, p: T -> bool, f: T -> real)
    ensures Sum(Filter(s, p), f) == SumWhere(s, p, f)
  {
    if s != [] {
      var init := s[..|s| - 1];
      SumFilter(init, p, f);
      SumAppend(Filter(init, p), if p(s[|s| - 1]) then [s[|s| - 1]] else [], f);
      assert Sum([s[|s| - 1]], f) == f(s[|s| - 1]) by {
        assert [s[|s| - 1]][..0] == [];
      }
    }
  }

  /** The sum of `f` over the elements satisfying `p`. */
  function SumWhere<T>(s: seq<T>, p: T -> bool, f: T -> real): real
  {
    if s == [] then 0.0
    else SumWhere(s[..|s| - 1], p, f) + (if p(s[|s| - 1]) then f(s[|s| - 1]) else 0.0)
  }

  /** Elements satisfying `p` and elements not satisfying it together make up `s`. */
  lemma {:induction false} CountComplement<T>(s: seq<T>, p: T -> bool, q: T -> bool)
    requires forall x :: q(x) == !p(x)
    ensures Count(s, p) + Count(s, q) == |s|
  {
    if s != [] {
      CountComplement(s[..|s| - 1], p, q);
    }
  }

  // ---------------------------------------------------------------------
  // Buckets: with distinct keys, the buckets partition the keyed elements

  /** The contribution of one element `x` to the buckets `ks`, added up. */
  function Hits<T, K(==)>(x: T, key: T -> K, ks: seq<K>): nat
  {
    if ks == [] then 0
    else Hits(x, key, ks[..|ks| - 1]) + (if key(x) == ks[|ks| - 1] then 1 else 0)
  }

  function HitSum<T, K(==)>(x: T, key: T -> K, ks: seq<K>, f: T -> real): real
  {
    if ks == [] then 0.0
    else HitSum(x, key, ks[..|ks| - 1], f) + (if key(x) == ks[|ks| - 1] then f(x) else 0.0)
  }

  lemma {:induction false} HitsDistinct<T, K>(x: T, key: T -> K, ks: seq<K>)
    requires Distinct(ks)
    ensures Hits(x, key, ks) == if key(x) in ks then 1 else 0
  {
    if ks != [] {
      var init := ks[..|ks| - 1];
      assert Distinct(init);
      HitsDistinct(x, key, init);
      assert ks == init + [ks[|ks| - 1]];
    }
  }

  lemma {:induction false} HitSumDistinct<T, K>(x: T, key: T -> K, ks: seq<K>, f: T -> real)
    requires Distinct(ks)
    ensures HitSum(x, key, ks, f) == if key(x) in ks then f(x) else 0.0
  {
    if ks != [] {
      var init := ks[..|ks| - 1];
      assert Distinct(init);
      HitSumDistinct(x, key, init, f);
      assert ks == init + [ks[|ks| - 1]];
    }
  }

  lemma {:induction false} BucketCountStep<T, K>(s: seq<T>, key: T -> K, ks: seq<K>)
    requires s != []
    ensures BucketCount(s, key, ks)
         == BucketCount(s[..|s| - 1], key, ks) + Hits(s[|s| - 1], key, ks)
  {
    if ks != [] {
      BucketCountStep(s, key, ks[..|ks| - 1]);
    }
  }

  lemma {:induction false} BucketSumStep<T, K>(s: seq<T>, key: T -> K, ks: seq<K>, f: T -> real)
    requires s != []
    ensures BucketSum(s, key, ks, f)
         == BucketSum(s[..|s| - 1], key, ks, f) + HitSum(s[|s| - 1], key, ks, f)
  {
    if ks != [] {
      BucketSumStep(s, key, ks[..|ks| - 1], f);
    }
  }

  /** With distinct keys, bucket sizes add up to the number of elements whose key is one of them. */
  lemma {:induction false} BucketCountPartition<T, K>(s: seq<T>, key: T -> K, ks: seq<K>)
    requires Distinct(ks)
    ensures BucketCount(s, key, ks) == CountKeyIn(s, key, ks)
  {
    if s == [] {
      BucketCountEmpty(s, key, ks);
    } else {
      BucketCountPartition(s[..|s| - 1], key, ks);
      BucketCountStep(s, key, ks);
      HitsDistinct(s[|s| - 1], key, ks);
    }
  }

  /** With distinct keys, bucket sums add up to the sum over the elements whose key is one of them. */
  lemma {:induction false} BucketSumPartition<T, K>(s: seq<T>, key: T -> K, ks: seq<K>, f: T -> real)
    requires Distinct(ks)
    ensures BucketSum(s, key, ks, f) == SumKeyIn(s, key, ks, f)
  {
    if s == [] {
      BucketSumEmpty(s, key, ks, f);
    } else {
      BucketSumPartition(s[..|s| - 1], key, ks, f);
      BucketSumStep(s, key, ks, f);
      HitSumDistinct(s[|s| - 1], key, ks, f);
    }
  }

  lemma {:induction false} BucketCountEmpty<T, K>(s: seq<T>, key: T -> K, ks: seq<K>)
    requires s == []
    ensures BucketCount(s, key, ks) == 0
  {
    if ks != [] {
      BucketCountEmpty(s, key, ks[..|ks| - 1]);
    }
  }

  lemma {:induction false} BucketSumEmpty<T, K>(s: seq<T>, key: T -> K, ks: seq<K>, f: T -> real)
    requires s == []
    ensures BucketSum(s, key, ks, f) == 0.0
  {
    if ks != [] {
      BucketSumEmpty(s, key, ks[..|ks| - 1], f);
    }
  }

  /** When every key is one of `ks`, the keyed count is the whole length. */
  lemma {:induction false} CountKeyInAll<T, K>(s: seq<T>, key: T -> K, ks: seq<K>)
    requires forall i :: 0 <= i < |s| ==> key(s[i]) in ks
    ensures CountKeyIn(s, key, ks) == |s|
  {
    if s != [] {
      CountKeyInAll(s[..|s| - 1], key, ks);
    }
  }

  /** When every key is one of `ks`, the keyed sum is the whole sum. */
  lemma {:induction false} SumKeyInAll<T, K>(s: seq<T>, key: T -> K, ks: seq<K>, f: T -> real)
    requires forall i :: 0 <= i < |s| ==> key(s[i]) in ks
    ensures SumKeyIn(s, key, ks, f) == Sum(s, f)
  {
    if s != [] {
      SumKeyInAll(s[..|s| - 1], key, ks, f);
    }
  }

  /** Distinct keys and every element keyed by one of them: the bucket sizes
      add up to the length and the bucket sums to the whole sum. */
  lemma BucketsCoverAll<T, K>(s: seq<T>, key: T -> K, ks: seq<K>, f: T -> real)
    requires Distinct(ks)
    requires forall i :: 0 <= i < |s| ==> key(s[i]) in ks
    ensures BucketCount(s, key, ks) == |s|
    ensures BucketSum(s, key, ks, f) == Sum(s, f)
  {
    BucketCountPartition(s, key, ks);
    CountKeyInAll(s, key, ks);
    BucketSumPartition(s, key, ks, f);
    SumKeyInAll(s, key, ks, f);
  }

  /** The keys of `s` in the order they first occur (`Object.keys` of an
      accumulator object filled in list order). */
  function FirstKeys<T, K(==)>(s: seq<T>, key: T -> K): (ks: seq<K>)
    ensures Distinct(ks)
    ensures forall i :: 0 <= i < |s| ==> key(s[i]) in ks
    ensures forall k :: k in ks ==> exists i :: 0 <= i < |s| && key(s[i]) == k
  {
    if s == [] then []
    else
      var init := s[..|s| - 1];
      var k := key(s[|s| - 1]);
      var ks := FirstKeys(init, key);
      assert forall i :: 0 <= i < |init| ==> init[i] == s[i];
      if k in ks then ks else ks + [k]
  }

  /** The sum of a list of amounts. */
  function Total(xs: seq<real>): real
  {
    if xs == [] then 0.0 else Total(xs[..|xs| - 1]) + xs[|xs| - 1]
  }

  /** The sum of a list of counts. */
  function TotalCount(xs: seq<nat>): nat
  {
    if xs == [] then 0 else TotalCount(xs[..|xs| - 1]) + xs[|xs| - 1]
  }

  /** A list holding the sum of each bucket adds up to the bucket sums. */
  lemma {:induction false} BucketsTotal<T, K>(s: seq<T>, key: T -> K, ks: seq<K>, f: T -> real, xs: seq<real>)
    requires |xs| == |ks|
    requires forall i :: 0 <= i < |ks| ==> xs[i] == SumKey(s, key, ks[i], f)
    ensures Total(xs) == BucketSum(s, key, ks, f)
  {
    if ks != [] {
      BucketsTotal(s, key, ks[..|ks| - 1], f, xs[..|xs| - 1]);
    }
  }

  /** A list holding the size of each bucket adds up to the bucket sizes. */
  lemma {:induction false} BucketsCountTotal<T, K>(s: seq<T>, key: T -> K, ks: seq<K>, xs: seq<nat>)
    requires |xs| == |ks|
    requires forall i :: 0 <= i < |ks| ==> xs[i] == CountKey(s, key, ks[i])
    ensures TotalCount(xs) == BucketCount(s, key, ks)
  {
    if ks != [] {
      BucketsCountTotal(s, key, ks[..|ks| - 1], xs[..|xs| - 1]);
    }
  }

  /** Two tests that agree on every element keep the same elements. */
  lemma {:induction false} FilterSame<T>(s: seq<T>, p: T -> bool, q: T -> bool)
    requires forall i :: 0 <= i < |s| ==> p(s[i]) == q(s[i])
    ensures Filter(s, p) == Filter(s, q)
  {
    if s != [] {
      FilterSame(s[..|s| - 1], p, q);
    }
  }

  /** A key no element has: empty bucket, zero sum. */
  lemma {:induction false} AbsentKey<T, K>(s: seq<T>, key: T -> K, k: K, f: T -> real)
    requires forall i :: 0 <= i < |s| ==> key(s[i]) != k
    ensures CountKey(s, key, k) == 0 && SumKey(s, key, k, f) == 0.0
  {
    if s != [] {
      AbsentKey(s[..|s| - 1], key, k, f);
    }
  }

  /** A series holding, for each of distinct keys that cover every element,
      the sum of that key's bucket adds up to the whole sum. */
  lemma SeriesTotal<T, K>(s: seq<T>, key: T -> K, ks: seq<K>, f: T -> real, xs: seq<real>)
    requires Distinct(ks)
    requires forall i :: 0 <= i < |s| ==> key(s[i]) in ks
    requires |xs| == |ks|
    requires forall i :: 0 <= i < |ks| ==> xs[i] == SumKey(s, key, ks[i], f)
    ensures Total(xs) == Sum(s, f)
  {
    BucketsTotal(s, key, ks, f, xs);
    BucketsCoverAll(s, key, ks, f);
  }

  /** What holds of every element still holds of every kept element. */
  lemma {:induction false} FilterKeepsAll<T>(s: seq<T>, p: T -> bool, good: T -> bool)
    requires forall i :: 0 <= i < |s| ==> good(s[i])
    ensures forall i :: 0 <= i < |Filter(s, p)| ==> good(Filter(s, p)[i])
  {
    if s != [] {
      FilterKeepsAll(s[..|s| - 1], p, good);
    }
  }

  /** One more element: its key's bucket grows by it, and its key joins the
      first-occurrence order unless already there. */
  lemma KeyStep<T, K>(s: seq<T>, x: T, key: T -> K, f: T -> real)
    ensures FirstKeys(s + [x], key) == if key(x) in FirstKeys(s, key) then FirstKeys(s, key) else FirstKeys(s, key) + [key(x)]
    ensures forall k :: CountKey(s + [x], key, k) == CountKey(s, key, k) + (if key(x) == k then 1 else 0)
    ensures forall k :: SumKey(s + [x], key, k, f) == SumKey(s, key, k, f) + (if key(x) == k then f(x) else 0.0)
  {
    assert (s + [x])[..|s|] == s;
  }

  // ---------------------------------------------------------------------
  // Editing a list by position

  /** `s.filter((_, i) => i !== index)`: every element but the one at `index`;
      an index outside the list removes nothing. */
  function DropAt<T>(s: seq<T>, index: int): (r: seq<T>)
    ensures 0 <= index < |s| ==> |r| == |s| - 1
    ensures 0 <= index < |s| ==> forall i :: 0 <= i < |r| ==> r[i] == if i < index then s[i] else s[i + 1]
    ensures !(0 <= index < |s|) ==> r == s
  {
    if 0 <= index < |s| then s[..index] + s[index + 1..] else s
  }

  /** Removing one element takes its amount off the sum. */
  lemma SumDropAt<T>(s: seq<T>, index: int, f: T -> real)
    requires 0 <= index < |s|
    ensures Sum(DropAt(s, index), f) == Sum(s, f) - f(s[index])
  {
    var a, b := s[..index], s[index + 1..];
    assert s == (a + [s[index]]) + b;
    SumPush(a, s[index], f);
    SumAppend(a + [s[index]], b, f);
    SumAppend(a, b, f);
  }

  /** Replacing one element exchanges its amount for the new one's. */
  lemma SumReplaceAt<T>(s: seq<T>, index: int, x: T, f: T -> real)
    requires 0 <= index < |s|
    ensures Sum(s[index := x], f) == Sum(s, f) - f(s[index]) + f(x)
  {
    var a, b := s[..index], s[index + 1..];
    assert s == (a + [s[index]]) + b;
    assert s[index := x] == (a + [x]) + b;
    SumPush(a, s[index], f);
    SumPush(a, x, f);
    SumAppend(a + [s[index]], b, f);
    SumAppend(a + [x], b, f);
  }

  /** Replacing one element exchanges its count for the new one's. */
  lemma CountReplaceAt<T>(s: seq<T>, index: int, x: T, p: T -> bool)
    requires 0 <= index < |s|
    ensures Count(s[index := x], p) == Count(s, p) - (if p(s[index]) then 1 else 0) + (if p(x) then 1 else 0)
  {
    var a, b := s[..index], s[index + 1..];
    assert s == (a + [s[index]]) + b;
    assert s[index := x] == (a + [x]) + b;
    CountPush(a, s[index], p);
    CountPush(a, x, p);
    CountAppend(a + [s[index]], b, p);
    CountAppend(a + [x], b, p);
  }

  lemma SumPush<T>(s: seq<T>, x: T, f: T -> real)
    ensures Sum(s + [x], f) == Sum(s, f) + f(x)
  {
    assert (s + [x])[..|s|] == s;
  }

  /** A list of amounts read off `s` one per element adds up to the sum over `s`. */
  lemma {:induction false} TotalOfEach<T>(s: seq<T>, f: T -> real, xs: seq<real>)
    requires |xs| == |s|
    requires forall i :: 0 <= i < |s| ==> xs[i] == f(s[i])
    ensures Total(xs) == Sum(s, f)
  {
    if s != [] {
      TotalOfEach(s[..|s| - 1], f, xs[..|xs| - 1]);
    }
  }

  /** `s.find(p)`: the first element satisfying `p`, or nothing. */
  function FindFirst<T(==)>(s: seq<T>, p: T -> bool): (r: Option<T>)
    ensures r.None? <==> forall i :: 0 <= i < |s| ==> !p(s[i])
    ensures r.Some? ==> exists i :: 0 <= i < |s| && s[i] == r.value && p(s[i])
                          && forall j :: 0 <= j < i ==> !p(s[j])
  {
    if s == [] then None
    else if p(s[0]) then Some(s[0])
    else
      var r := FindFirst(s[1..], p);
      assert forall j :: 0 <= j < |s| - 1 ==> s[1..][j] == s[j + 1];
      if r.Some? then
        var i :| 0 <= i < |s[1..]| && s[1..][i] == r.value && p(s[1..][i])
                  && forall j :: 0 <= j < i ==> !p(s[1..][j]);
        assert s[i + 1] == r.value;
        r
      else r
  }
  /** One element in front adds its own count. */
  lemma CountPrepend<T>(x: T, s: seq<T>, p: T -> bool)
    ensures Count([x] + s, p) == Count(s, p) + (if p(x) then 1 else 0)
  {
    CountAppend([x], s, p);
    assert [x][..0] == [];
  }

  /** One element in front is kept in front when it passes. */
  lemma FilterPrepend<T>(x: T, s: seq<T>, p: T -> bool)
    ensures Filter([x] + s, p) == (if p(x) then [x] else []) + Filter(s, p)
  {
    FilterAppend([x], s, p);
    assert Filter([x], p) == if p(x) then [x] else [] by {
      assert [x][..0] == [];
    }
  }

  /** One element in front adds `f` of it to the sum. */
  lemma SumPrepend<T>(x: T, s: seq<T>, f: T -> real)
    ensures Sum([x] + s, f) == f(x) + Sum(s, f)
  {
    SumAppend([x], s, f);
    assert [x][..0] == [];
  }

  /** Filtering first never raises the count of any other property. */
  lemma {:induction false} CountOfFilter<T>(s: seq<T>, keep: T -> bool, p: T -> bool)
    ensures Count(Filter(s, keep), p) <= Count(s, p)
    ensures (forall i :: 0 <= i < |s| ==> keep(s[i])) ==> Count(Filter(s, keep), p) == Count(s, p)
  {
    if s != [] {
      var init, x := s[..|s| - 1], s[|s| - 1];
      assert s == init + [x];
      CountOfFilter(init, keep, p);
      FilterAppend(init, [x], keep);
      var extra := Filter([x], keep);
      assert extra == if keep(x) then [x] else [] by {
        assert [x][..0] == [];
      }
      CountAppend(Filter(init, keep), extra, p);
      CountPush(init, x, p);
      assert Count(extra, p) == if keep(x) && p(x) then 1 else 0 by {
        assert [x][..0] == [];
      }
    }
  }

  /** The sum of `f` where `p` holds is the sum of `f` masked by `p`. */
  lemma {:induction false} SumWhereMasked<T>(s: seq<T>, p: T -> bool, f: T -> real, g: T -> real)
    requires forall x :: g(x) == if p(x) then f(x) else 0.0
    ensures SumWhere(s, p, f) == Sum(s, g)
  {
    if s != [] {
      SumWhereMasked(s[..|s| - 1], p, f, g);
    }
  }

  /** Filtering by `p` and then by `q` is filtering by both at once. */
  lemma {:induction false} FilterFilter<T>(s: seq<T>, p: T -> bool, q: T -> bool, both: T -> bool)
    requires forall x :: both(x) == (p(x) && q(x))
    ensures Filter(Filter(s, p), q) == Filter(s, both)
  {
    if s != [] {
      var init, x := s[..|s| - 1], s[|s| - 1];
      assert s == init + [x];
      FilterFilter(init, p, q, both);
      FilterAppend(init, [x], p);
      FilterAppend(init, [x], both);
      var kept := Filter([x], p);
      assert kept == if p(x) then [x] else [] by {
        assert [x][..0] == [];
      }
      FilterAppend(Filter(init, p), kept, q);
      assert Filter(kept, q) == Filter([x], both) by {
        assert [x][..0] == [];
      }
    }
  }
}

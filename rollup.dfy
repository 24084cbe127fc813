/** The read-side reductions shared by the dashboard and carbon routes: the
    per-key accumulator `reduce((acc, x) => { acc[k] = (acc[k] || 0) + w; ... }, {})`,
    the sum of a map's values, and `Math.round` of a mean. */
module Rollup {
  import opened Common
  import opened Collections

  /** One accumulator step: `acc[k] = (acc[k] || 0) + v`. */
  function Bump<K>(acc: map<K, int>, k: K, v: int): (r: map<K, int>)
    ensures r.Keys == acc.Keys + {k}
    ensures r[k] == (if k in acc then acc[k] else 0) + v
    ensures forall j :: j in acc && j != k ==> r[j] == acc[j]
  {
    acc[k := (if k in acc then acc[k] else 0) + v]
  }

  /** The accumulator after folding over `s` from first to last. */
  function TallyOf<T, K>(s: seq<T>, key: T -> K, weight: T -> int): map<K, int>
  {
    if s == [] then map[]
    else Bump(TallyOf(s[..|s| - 1], key, weight), key(s[|s| - 1]), weight(s[|s| - 1]))
  }

  /** The accumulator loop, proved against `TallyOf`. */
  method Tally<T, K>(s: seq<T>, key: T -> K, weight: T -> int) returns (acc: map<K, int>)
    ensures acc == TallyOf(s, key, weight)
  {
    acc := map[];
    var i := 0;
    while i < |s|
      invariant 0 <= i <= |s|
      invariant acc == TallyOf(s[..i], key, weight)
    {
      assert s[..i + 1][..i] == s[..i];
      acc := Bump(acc, key(s[i]), weight(s[i]));
      i := i + 1;
    }
    assert s[..|s|] == s;
  }

  /** A key is present exactly when some element has it. */
  lemma {:induction false} TallyKeys<T, K>(s: seq<T>, key: T -> K, weight: T -> int)
    ensures forall k :: k in TallyOf(s, key, weight) <==> exists i :: 0 <= i < |s| && key(s[i]) == k
  {
    if s != [] {
      var init := s[..|s| - 1];
      TallyKeys(init, key, weight);
      forall k ensures k in TallyOf(s, key, weight) <==> exists i :: 0 <= i < |s| && key(s[i]) == k {
        if k in TallyOf(init, key, weight) {
          var i :| 0 <= i < |init| && key(init[i]) == k;
          assert key(s[i]) == k;
        }
        if exists i :: 0 <= i < |s| && key(s[i]) == k {
          var i :| 0 <= i < |s| && key(s[i]) == k;
          if i < |init| {
            assert key(init[i]) == k;
          }
        }
      }
    }
  }

  /** The elements whose key is `k`. */
  function HasKey<T, K(==)>(key: T -> K, k: K): T -> bool
  {
    x => key(x) == k
  }

  /** The bucket of `k` holds the summed weight of exactly the elements with key `k`. */
  lemma {:induction false} TallyBucket<T(!new), K>(s: seq<T>, key: T -> K, weight: T -> int, k: K)
    requires k in TallyOf(s, key, weight)
    ensures TallyOf(s, key, weight)[k] == SumOf(Filter(s, HasKey(key, k)), weight)
  {
    var init, last := s[..|s| - 1], s[|s| - 1];
    assert s == init + [last];
    FilterAppend(init, [last], HasKey(key, k));
    var f := Filter(init, HasKey(key, k));
    if key(last) == k {
      assert Filter([last], HasKey(key, k)) == [last];
      SumOfSnoc(f, last, weight);
      if k in TallyOf(init, key, weight) {
        TallyBucket(init, key, weight, k);
      } else {
        TallyKeys(init, key, weight);
        FilterNone(init, HasKey(key, k));
      }
    } else {
      assert Filter([last], HasKey(key, k)) == [];
      assert f + [] == f;
      TallyBucket(init, key, weight, k);
    }
  }

  /** The sum of the values of `m` at `keys`. */
  ghost function SumValues<K>(m: map<K, int>, keys: set<K>): int
    requires keys <= m.Keys
    decreases |keys|
  {
    if keys == {} then 0
    else
      var k :| k in keys;
      m[k] + SumValues(m, keys - {k})
  }

  /** The sum of all the values of a response object. */
  ghost function MapTotal<K>(m: map<K, int>): int
  {
    SumValues(m, m.Keys)
  }

  /** The sum does not depend on which key is taken first. */
  lemma {:induction false} SumValuesRemove<K>(m: map<K, int>, keys: set<K>, k: K)
    requires keys <= m.Keys && k in keys
    ensures SumValues(m, keys) == m[k] + SumValues(m, keys - {k})
    decreases |keys|
  {
    var j :| j in keys && SumValues(m, keys) == m[j] + SumValues(m, keys - {j});
    if j != k {
      SumValuesRemove(m, keys - {j}, k);
      SumValuesRemove(m, keys - {k}, j);
      assert keys - {j} - {k} == keys - {k} - {j};
    }
  }

  /** Only the values at `keys` matter. */
  lemma {:induction false} SumValuesFrame<K>(m1: map<K, int>, m2: map<K, int>, keys: set<K>)
    requires keys <= m1.Keys && keys <= m2.Keys
    requires forall k :: k in keys ==> m1[k] == m2[k]
    ensures SumValues(m1, keys) == SumValues(m2, keys)
    decreases |keys|
  {
    if keys != {} {
      var k :| k in keys && SumValues(m1, keys) == m1[k] + SumValues(m1, keys - {k});
      SumValuesRemove(m2, keys, k);
      SumValuesFrame(m1, m2, keys - {k});
    }
  }

  /** One accumulator step adds its weight to the total. */
  lemma BumpTotal<K>(acc: map<K, int>, k: K, v: int)
    ensures MapTotal(Bump(acc, k, v)) == MapTotal(acc) + v
  {
    var r := Bump(acc, k, v);
    SumValuesRemove(r, r.Keys, k);
    SumValuesFrame(r, acc, acc.Keys - {k});
    if k in acc {
      SumValuesRemove(acc, acc.Keys, k);
      assert r.Keys - {k} == acc.Keys - {k};
    } else {
      assert r.Keys - {k} == acc.Keys;
      assert acc.Keys - {k} == acc.Keys;
    }
  }

  /** Conservation: the buckets of a tally sum to the total weight. */
  lemma {:induction false} TallyConserves<T, K>(s: seq<T>, key: T -> K, weight: T -> int)
    ensures MapTotal(TallyOf(s, key, weight)) == SumOf(s, weight)
  {
    if s == [] {
      var empty: map<K, int> := map[];
      assert MapTotal(empty) == 0;
    } else {
      var init, last := s[..|s| - 1], s[|s| - 1];
      TallyConserves(init, key, weight);
      BumpTotal(TallyOf(init, key, weight), key(last), weight(last));
      assert s == init + [last];
      SumOfSnoc(init, last, weight);
    }
  }

  function One<T>(x: T): int
  {
    1
  }

  /** Counting is summing ones. */
  lemma {:induction false} SumOfOnes<T>(s: seq<T>)
    ensures SumOf(s, One) == |s|
  {
    if s != [] {
      SumOfOnes(s[1..]);
    }
  }

  /** Counts per key sum to the number of elements. */
  lemma CountsConserve<T, K>(s: seq<T>, key: T -> K)
    ensures MapTotal(TallyOf(s, key, One)) == |s|
  {
    TallyConserves(s, key, One);
    SumOfOnes(s);
  }

  /** `Math.round(sum / n)` for `n > 0` (halves round up), and 0 when there
      is nothing to average. */
  function RoundedMean(sum: int, n: nat): (r: int)
    ensures n == 0 ==> r == 0
    ensures n > 0 ==> 2 * n * r - n <= 2 * sum < 2 * n * r + n
  {
    if n == 0 then 0 else (2 * sum + n) / (2 * n)
  }

  /** The rounded mean is the nearest integer: no other integer is closer. */
  lemma RoundedMeanNearest(sum: int, n: nat, m: int)
    requires n > 0
    ensures var r := RoundedMean(sum, n);
            Abs(m * n - sum) >= Abs(r * n - sum)
  {
    var r := RoundedMean(sum, n);
    var e := r * n - sum;
    assert 2 * n * r == 2 * (r * n);
    assert 0 - n < 2 * e <= n;
    if m > r {
      MulLe(r + 1, m, n);
      assert (r + 1) * n == r * n + n;
      assert 2 * (m * n - sum) >= 2 * e + 2 * n;
    } else if m < r {
      MulLe(m, r - 1, n);
      assert (r - 1) * n == r * n - n;
      assert 2 * (m * n - sum) <= 2 * e - 2 * n;
    }
  }

  /** A mean of values in [lo, hi] rounds into [lo, hi]. */
  lemma RoundedMeanWithin(sum: int, n: nat, lo: int, hi: int)
    requires n > 0 && n * lo <= sum <= n * hi
    ensures lo <= RoundedMean(sum, n) <= hi
  {
    var r := RoundedMean(sum, n);
    if r < lo {
      MulLe(r + 1, lo, n);
      assert false;
    } else if r > hi {
      MulLe(hi + 1, r, n);
      assert false;
    }
  }
}

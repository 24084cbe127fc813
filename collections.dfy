/** The in-memory counterparts of the database queries the routes issue:
    filtering a collection by a predicate (`find(filter)`), ordering it on an
    integer key (`sort({key: ±1})`) and summing a numeric field (`reduce`). */
module Collections {
  import opened Common

  /** The elements of `s` that satisfy `p`, in their original order. */
  function Filter<T(!new)>(s: seq<T>, p: T -> bool): (r: seq<T>)
    ensures |r| <= |s|
    ensures forall x :: x in r <==> x in s && p(x)
    ensures forall x :: multiset(r)[x] == if p(x) then multiset(s)[x] else 0
  {
    if s == [] then []
    else
      assert s == [s[0]] + s[1..];
      if p(s[0]) then [s[0]] + Filter(s[1..], p) else Filter(s[1..], p)
  }

  /** `s` with `f` applied to each element, in order (Mongoose casting an
      array field element by element). */
  function MapSeq<A, B>(s: seq<A>, f: A -> B): (r: seq<B>)
    ensures |r| == |s|
    ensures forall i :: 0 <= i < |s| ==> r[i] == f(s[i])
  {
    if s == [] then [] else [f(s[0])] + MapSeq(s[1..], f)
  }

  /** The position of the first element whose `key` is `k` (`findOne` on a
      unique field scanning in insertion order). */
  function FindFirst<T, K(==)>(s: seq<T>, key: T -> K, k: K): (r: Option<nat>)
    ensures r.None? <==> forall i :: 0 <= i < |s| ==> key(s[i]) != k
    ensures r.Some? ==> r.value < |s| && key(s[r.value]) == k
    ensures r.Some? ==> forall i :: 0 <= i < r.value ==> key(s[i]) != k
  {
    if s == [] then None
    else if key(s[0]) == k then Some(0)
    else
      match FindFirst(s[1..], key, k)
      case None => None
      case Some(j) => Some(j + 1)
  }

  /** Filtering a sequence with a known first element. */
  lemma FilterCons<T(!new)>(x: T, s: seq<T>, p: T -> bool)
    ensures Filter([x] + s, p) == (if p(x) then [x] else []) + Filter(s, p)
  {
    assert ([x] + s)[0] == x && ([x] + s)[1..] == s;
    if !p(x) {
      assert [] + Filter(s, p) == Filter(s, p);
    }
  }

  /** Filtering distributes over concatenation, so it keeps relative order. */
  lemma {:induction false} FilterAppend<T(!new)>(a: seq<T>, b: seq<T>, p: T -> bool)
    ensures Filter(a + b, p) == Filter(a, p) + Filter(b, p)
  {
    if a == [] {
      assert a + b == b;
    } else {
      var x, t := a[0], a[1..];
      assert a == [x] + t && a + b == [x] + (t + b);
      FilterAppend(t, b, p);
      FilterCons(x, t + b, p);
      FilterCons(x, t, p);
      AppendAssoc(if p(x) then [x] else [], Filter(t, p), Filter(b, p));
    }
  }

  lemma AppendAssoc<T>(h: seq<T>, u: seq<T>, v: seq<T>)
    ensures h + (u + v) == (h + u) + v
  {
  }

  /** Filtering by a predicate every element meets changes nothing. */
  lemma {:induction false} FilterAll<T(!new)>(s: seq<T>, p: T -> bool)
    requires forall x :: x in s ==> p(x)
    ensures Filter(s, p) == s
  {
    if s != [] {
      assert s[0] in s && forall x :: x in s[1..] ==> x in s;
      FilterAll(s[1..], p);
      assert Filter(s, p) == [s[0]] + Filter(s[1..], p);
      assert s == [s[0]] + s[1..];
    }
  }

  /** Two filters on exclusive predicates select at most all elements between them. */
  lemma {:induction false} FilterDisjointCount<T(!new)>(s: seq<T>, p: T -> bool, q: T -> bool)
    requires forall x :: x in s ==> !(p(x) && q(x))
    ensures |Filter(s, p)| + |Filter(s, q)| <= |s|
  {
    if s != [] {
      assert forall x :: x in s[1..] ==> x in s;
      FilterDisjointCount(s[1..], p, q);
    }
  }

  /** Filtering depends only on which elements the predicate accepts. */
  lemma {:induction false} FilterExt<T(!new)>(s: seq<T>, p: T -> bool, q: T -> bool)
    requires forall x :: x in s ==> p(x) == q(x)
    ensures Filter(s, p) == Filter(s, q)
  {
    if s != [] {
      assert forall x :: x in s[1..] ==> x in s;
      FilterExt(s[1..], p, q);
    }
  }

  /** Filtering by a predicate no element meets leaves nothing. */
  lemma {:induction false} FilterNone<T(!new)>(s: seq<T>, p: T -> bool)
    requires forall i :: 0 <= i < |s| ==> !p(s[i])
    ensures Filter(s, p) == []
  {
    if s != [] {
      FilterNone(s[1..], p);
    }
  }

  /** Filtering by `p` and then by `q` is filtering by both. */
  lemma {:induction false} FilterFilter<T(!new)>(s: seq<T>, p: T -> bool, q: T -> bool)
    ensures Filter(Filter(s, p), q) == Filter(s, x => p(x) && q(x))
  {
    if s != [] {
      FilterFilter(s[1..], p, q);
    }
  }

  /** `a` precedes `b` in ascending (`desc` false) or descending key order. */
  predicate InOrder<T>(a: T, b: T, key: T -> int, desc: bool)
  {
    if desc then key(a) >= key(b) else key(a) <= key(b)
  }

  predicate SortedBy<T>(s: seq<T>, key: T -> int, desc: bool)
  {
    forall i, j :: 0 <= i < j < |s| ==> InOrder(s[i], s[j], key, desc)
  }

  /** `s` holds exactly the elements of `of` (with their multiplicities), ordered on `key`. */
  predicate IsOrdering<T(==)>(s: seq<T>, of: seq<T>, key: T -> int, desc: bool)
  {
    SortedBy(s, key, desc) && multiset(s) == multiset(of)
  }

  function Insert<T(!new)>(x: T, s: seq<T>, key: T -> int, desc: bool): (r: seq<T>)
    requires SortedBy(s, key, desc)
    ensures SortedBy(r, key, desc)
    ensures multiset(r) == multiset(s) + multiset{x}
  {
    if s == [] then [x]
    else if InOrder(x, s[0], key, desc) then [x] + s
    else
      var t := Insert(x, s[1..], key, desc);
      assert s == [s[0]] + s[1..];
      SortedCons(x, s[0], s[1..], t, key, desc);
      [s[0]] + t
  }

  /** Putting `h` in front of `t`, a sorted permutation of `rest` plus `x`,
      stays sorted when `h` came first in `[h] + rest` and `x` goes after `h`. */
  lemma SortedCons<T>(x: T, h: T, rest: seq<T>, t: seq<T>, key: T -> int, desc: bool)
    requires SortedBy([h] + rest, key, desc) && SortedBy(t, key, desc)
    requires multiset(t) == multiset(rest) + multiset{x}
    requires !InOrder(x, h, key, desc)
    ensures SortedBy([h] + t, key, desc)
  {
    forall k | 0 <= k < |t| ensures InOrder(h, t[k], key, desc) {
      assert t[k] in multiset(t);
      if t[k] != x {
        assert t[k] in multiset(rest);
        var m :| 0 <= m < |rest| && rest[m] == t[k];
        assert ([h] + rest)[0] == h && ([h] + rest)[1 + m] == t[k];
        assert InOrder(([h] + rest)[0], ([h] + rest)[1 + m], key, desc);
      }
    }
    var r := [h] + t;
    forall i, j | 0 <= i < j < |r| ensures InOrder(r[i], r[j], key, desc) {
      if i == 0 {
        assert r[j] == t[j - 1];
      } else {
        assert r[i] == t[i - 1] && r[j] == t[j - 1];
      }
    }
  }

  /** A stable insertion sort: a permutation of `s` ordered on `key`. */
  function Sort<T(!new)>(s: seq<T>, key: T -> int, desc: bool): (r: seq<T>)
    ensures SortedBy(r, key, desc)
    ensures multiset(r) == multiset(s)
    ensures |r| == |s|
  {
    if s == [] then []
    else
      assert s == [s[0]] + s[1..];
      Insert(s[0], Sort(s[1..], key, desc), key, desc)
  }

  /** `s.reduce((sum, x) => sum + f(x), 0)`. */
  function SumOf<T>(s: seq<T>, f: T -> int): int
  {
    if s == [] then 0 else f(s[0]) + SumOf(s[1..], f)
  }

  lemma {:induction false} SumOfAppend<T>(a: seq<T>, b: seq<T>, f: T -> int)
    ensures SumOf(a + b, f) == SumOf(a, f) + SumOf(b, f)
  {
    if a == [] {
      assert a + b == b;
    } else {
      assert (a + b)[1..] == a[1..] + b;
      SumOfAppend(a[1..], b, f);
    }
  }

  /** Adding one element at the end raises the sum by exactly that element's value. */
  lemma SumOfSnoc<T>(s: seq<T>, x: T, f: T -> int)
    ensures SumOf(s + [x], f) == SumOf(s, f) + f(x)
  {
    SumOfAppend(s, [x], f);
  }

  /** A sum of terms each within [lo, hi] lies within [n*lo, n*hi]. */
  lemma {:induction false} SumOfBounds<T>(s: seq<T>, f: T -> int, lo: int, hi: int)
    requires forall i :: 0 <= i < |s| ==> lo <= f(s[i]) <= hi
    ensures |s| * lo <= SumOf(s, f) <= |s| * hi
  {
    if s != [] {
      var t := s[1..];
      assert forall i :: 0 <= i < |t| ==> t[i] == s[i + 1];
      SumOfBounds(t, f, lo, hi);
      assert lo <= f(s[0]) <= hi;
      assert SumOf(s, f) == f(s[0]) + SumOf(t, f);
      MulSucc(|t|, lo);
      MulSucc(|t|, hi);
    }
  }
}

/** Offset pagination as both list routes do it: `skip((page - 1) * limit)`,
    `limit(limit)`, the total from `countDocuments(filter)` and
    `pages: Math.ceil(total / limit)`. */
module Paging {
  import opened Common
  import opened Collections

  datatype Page<T> = Page(items: seq<T>, page: int, limit: int, total: nat, pages: Option<int>)

  const DEFAULT_PAGE: int := 1
  const DEFAULT_LIMIT: int := 10

  /** `Math.ceil(total / limit)`. A zero limit gives a non-finite quotient
      (Infinity, or NaN for 0/0), which JSON renders as null: `None`. */
  function PageCount(total: nat, limit: int): (r: Option<int>)
    ensures r.None? <==> limit == 0
    ensures limit > 0 ==> r.Some? && (r.value - 1) * limit < total <= r.value * limit
    ensures limit < 0 ==> r.Some? && r.value * limit <= total < (r.value - 1) * limit
  {
    if limit == 0 then None
    else if limit > 0 then
      var p := (total + limit - 1) / limit;
      assert p * limit <= total + limit - 1 < (p + 1) * limit;
      Some(p)
    else
      var q := total / -limit;
      assert q * -limit <= total < (q + 1) * -limit;
      Some(-q)
  }

  /** One page of an already ordered result. MongoDB rejects a negative skip
      (the handler's catch turns that into 500); `limit(0)` means no limit and
      a negative limit returns at most |limit| documents. */
  function Paginate<T>(sorted: seq<T>, page: int, limit: int): (r: Result<Page<T>>)
    ensures r.Err? <==> (page - 1) * limit < 0
    ensures r.Err? ==> r.code == SERVER_ERROR
    ensures r.Ok? ==>
              && r.value.page == page && r.value.limit == limit
              && r.value.total == |sorted|
              && r.value.pages == PageCount(|sorted|, limit)
    ensures r.Ok? ==>
              var skip := (page - 1) * limit;
              && |r.value.items| == (if skip >= |sorted| then 0
                                     else if limit == 0 then |sorted| - skip
                                     else Min(Abs(limit), |sorted| - skip))
              && forall k :: 0 <= k < |r.value.items| ==> r.value.items[k] == sorted[skip + k]
  {
    var skip := (page - 1) * limit;
    if skip < 0 then Err(SERVER_ERROR)
    else
      var lo := Min(skip, |sorted|);
      var hi := if limit == 0 then |sorted| else Min(lo + Abs(limit), |sorted|);
      Ok(Page(sorted[lo..hi], page, limit, |sorted|, PageCount(|sorted|, limit)))
  }

  /** `items` is page `page` of `sorted` at `limit` per page, as the skip and
      limit of the query select it. */
  predicate IsPageOf<T(==)>(items: seq<T>, sorted: seq<T>, page: int, limit: int)
  {
    var skip := (page - 1) * limit;
    && skip >= 0
    && |items| == (if skip >= |sorted| then 0
                   else if limit == 0 then |sorted| - skip
                   else Min(Abs(limit), |sorted| - skip))
    && forall k :: 0 <= k < |items| ==> items[k] == sorted[skip + k]
  }

  /** A page of an ordered result is ordered, and holds only items of it. */
  lemma PageOfSorted<T>(sorted: seq<T>, page: int, limit: int, key: T -> int, desc: bool)
    requires SortedBy(sorted, key, desc)
    ensures var r := Paginate(sorted, page, limit);
            r.Ok? ==> SortedBy(r.value.items, key, desc) && forall x :: x in r.value.items ==> x in sorted
  {
    var r := Paginate(sorted, page, limit);
    if r.Ok? {
      ShiftedSorted(r.value.items, sorted, (page - 1) * limit, key, desc);
    }
  }

  /** What a listing route returns: page `page` of the elements of `docs`
      satisfying `sel`, ordered on `key` (`find(sel).sort(key).skip().limit()`
      beside `countDocuments(sel)`). */
  function Listing<T(!new)>(docs: seq<T>, sel: T -> bool, key: T -> int, desc: bool,
                            page: int, limit: int): (r: Result<Page<T>>)
    ensures r.Err? <==> (page - 1) * limit < 0
    ensures r.Err? ==> r.code == SERVER_ERROR
    ensures r.Ok? ==>
              && r.value.page == page && r.value.limit == limit
              && r.value.total == |Filter(docs, sel)|
              && r.value.pages == PageCount(r.value.total, limit)
              && (limit > 0 ==> |r.value.items| <= limit)
    ensures r.Ok? ==> forall x :: x in r.value.items ==> x in docs && sel(x)
    ensures r.Ok? ==> SortedBy(r.value.items, key, desc)
    ensures r.Ok? ==> exists sorted :: IsOrdering(sorted, Filter(docs, sel), key, desc)
                                      && IsPageOf(r.value.items, sorted, page, limit)
  {
    var matching := Filter(docs, sel);
    var sorted := Sort(matching, key, desc);
    PageOfSorted(sorted, page, limit, key, desc);
    assert forall x :: x in sorted ==> x in matching by {
      forall x | x in sorted ensures x in matching {
        assert x in multiset(sorted);
      }
    }
    var r := Paginate(sorted, page, limit);
    assert r.Ok? ==> IsOrdering(sorted, matching, key, desc) && IsPageOf(r.value.items, sorted, page, limit);
    r
  }

  /** With a positive limit, paging through a listing reaches every selected
      element: none falls between two pages. */
  lemma EverySelectedListed<T(!new)>(docs: seq<T>, sel: T -> bool, key: T -> int, desc: bool,
                                     limit: int, x: T)
    requires limit > 0 && x in docs && sel(x)
    ensures exists p :: p >= 1 && Listing(docs, sel, key, desc, p, limit).Ok?
                                && x in Listing(docs, sel, key, desc, p, limit).value.items
  {
    var sorted := Sort(Filter(docs, sel), key, desc);
    assert x in multiset(sorted);
    var k :| 0 <= k < |sorted| && sorted[k] == x;
    EveryItemOnItsPage(sorted, limit, k);
    var p := k / limit + 1;
    assert Listing(docs, sel, key, desc, p, limit) == Paginate(sorted, p, limit);
  }

  /** A run of consecutive items of an ordered sequence is ordered. */
  lemma ShiftedSorted<T>(items: seq<T>, sorted: seq<T>, skip: int, key: T -> int, desc: bool)
    requires SortedBy(sorted, key, desc) && skip >= 0
    requires items == [] || skip + |items| <= |sorted|
    requires forall k :: 0 <= k < |items| ==> items[k] == sorted[skip + k]
    ensures SortedBy(items, key, desc) && forall x :: x in items ==> x in sorted
  {
    forall i, j | 0 <= i < j < |items| ensures InOrder(items[i], items[j], key, desc) {
      assert items[i] == sorted[skip + i] && items[j] == sorted[skip + j];
    }
    forall x | x in items ensures x in sorted {
      var k :| 0 <= k < |items| && items[k] == x;
      assert x == sorted[skip + k];
    }
  }

  /** With a positive limit the pages partition the result: the k-th item is
      item k % limit of page k / limit + 1, and that page is among the
      `pages` the response announces. */
  lemma EveryItemOnItsPage<T>(sorted: seq<T>, limit: int, k: nat)
    requires limit > 0 && k < |sorted|
    ensures var p := k / limit + 1;
            && Paginate(sorted, p, limit).Ok?
            && k % limit < |Paginate(sorted, p, limit).value.items|
            && Paginate(sorted, p, limit).value.items[k % limit] == sorted[k]
            && 1 <= p <= PageCount(|sorted|, limit).value
  {
    var q, rem := k / limit, k % limit;
    assert k == q * limit + rem && 0 <= rem < limit;
    PageHolds(sorted, q, limit, rem);
    var n := PageCount(|sorted|, limit).value;
    assert q < n by {
      assert k < n * limit;
      if q >= n {
        MulLe(n, q, limit);
      }
    }
  }

  lemma PageHolds<T>(sorted: seq<T>, q: nat, limit: int, rem: nat)
    requires limit > 0 && rem < limit && q * limit + rem < |sorted|
    ensures Paginate(sorted, q + 1, limit).Ok?
    ensures rem < |Paginate(sorted, q + 1, limit).value.items|
    ensures Paginate(sorted, q + 1, limit).value.items[rem] == sorted[q * limit + rem]
  {
    assert (q + 1 - 1) * limit == q * limit;
  }
}

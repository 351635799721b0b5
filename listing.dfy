/** The listing arithmetic shared by `getOrders` and `getMenuItems`: the sort
    string handed to the database, and the `.skip(...).limit(...)` window. */
module Listing {
  import opened Http
  import Strings
  import Ids

  /** A page number from 1 on. */
  type PageNumber = p: nat | p >= 1 witness 1

  /** The JSON body of a listing: the page's document ids, their count, the
      page and limit echoed back, and the number of matching documents. */
  datatype Page = Page(ids: seq<string>, count: nat, page: int, limit: int, total: nat)

  /** The destructuring defaults `limit = 10, page = 1`, which apply when the
      query string leaves the parameter out. */
  const DefaultLimit: int := 10
  const DefaultPage: int := 1

  /** `parseInt(value, 10)` of a query parameter already parsed, or its default
      when the parameter is absent. */
  function OrDefault(value: Option<int>, default: int): int {
    if value.Some? then value.value else default
  }

  /** `(parseInt(page, 10) - 1) * limitNum`: negative exactly when the page
      lies before page 1 under a positive limit, or after it under a negative one. */
  function Skip(page: int, limit: int): (skip: int)
    ensures skip + limit == page * limit
    ensures skip < 0 <==> (page < 1 && limit > 0) || (page > 1 && limit < 0)
  {
    ProductSign(page - 1, limit);
    (page - 1) * limit
  }

  lemma ProductSign(a: int, b: int)
    ensures a * b < 0 <==> (a < 0 && b > 0) || (a > 0 && b < 0)
  {
    if a == 0 || b == 0 {
      assert a * b == 0;
    } else if a > 0 && b > 0 {
      ProductPositive(a, b);
    } else if a < 0 && b < 0 {
      ProductPositive(-a, -b);
      assert (-a) * (-b) == a * b;
    } else if a < 0 {
      ProductPositive(-a, b);
      assert (-a) * b == -(a * b);
    } else {
      ProductPositive(a, -b);
      assert a * (-b) == -(a * b);
    }
  }

  lemma {:induction false} ProductPositive(a: int, b: int)
    requires a > 0 && b > 0
    ensures a * b > 0
  {
    if a > 1 {
      ProductPositive(a - 1, b);
      assert a * b == (a - 1) * b + b;
    }
  }

  function Abs(n: int): nat {
    if n < 0 then -n else n
  }

  /** `.skip(skip).limit(limit)` applied to the database's sorted results;
      as in MongoDB, a limit of 0 sets no limit. */
  function Paginate<T>(results: seq<T>, skip: nat, limit: nat): (window: seq<T>)
    ensures limit > 0 ==> |window| <= limit
    ensures skip >= |results| ==> window == []
    ensures skip < |results| ==> skip + |window| <= |results| && window == results[skip..skip + |window|]
    ensures skip < |results| && (limit == 0 || skip + limit >= |results|) ==> skip + |window| == |results|
    ensures skip < |results| && 0 < limit && skip + limit <= |results| ==> |window| == limit
  {
    if skip >= |results| then []
    else if limit == 0 || skip + limit > |results| then results[skip..]
    else results[skip..skip + limit]
  }

  const NegativeSkipMessage: string := "Skip value must be non-negative"

  /** What the database returns for `.skip(skip).limit(limit)` over the sorted
      documents: MongoDB refuses a negative skip, and reads a negative limit
      `-n` as a single batch of at most `n` documents. */
  function Fetch<T>(sorted: seq<T>, skip: int, limit: int): (r: Result<seq<T>>)
    ensures r.Err? <==> skip < 0
    ensures r.Err? ==> r.failure.Status() == UnhandledStatus
    ensures r.Ok? ==> r.value == Paginate(sorted, skip, Abs(limit))
    ensures r.Ok? && limit != 0 ==> |r.value| <= Abs(limit)
  {
    if skip < 0 then Err(HttpError(UnhandledStatus, NegativeSkipMessage))
    else Ok(Paginate(sorted, skip, Abs(limit)))
  }

  /** `sorted` is an ordering of the `selected` ids: each of them exactly once. */
  predicate IsOrdering(sorted: seq<string>, selected: set<string>) {
    && Ids.Distinct(sorted)
    && (forall id :: id in sorted ==> id in selected)
    && (forall id :: id in selected ==> id in sorted)
  }

  /** The database's sort hands back an ordering of whatever it is given. */
  ghost predicate SortsInput(sortEngine: (set<string>, string) -> seq<string>) {
    forall selected: set<string>, sortBy: string :: IsOrdering(sortEngine(selected, sortBy), selected)
  }

  /** The response of `getOrders` and `getMenuItems` for the `selected`
      documents in the database's order `sorted`. A request with neither
      `limit` nor `page` gets the first ten documents as page 1. Otherwise the
      window starts at `(page - 1) * limit`; a negative skip fails with 500.
      Every listed id is a selected one, none is listed twice, and the total
      counts every selected document. */
  function Respond(selected: set<string>, sorted: seq<string>, limit: Option<int>, page: Option<int>): (r: Result<Page>)
    requires IsOrdering(sorted, selected)
    ensures var limitNum := OrDefault(limit, DefaultLimit);
      var pageNum := OrDefault(page, DefaultPage);
      && (r.Err? <==> (pageNum < 1 && limitNum > 0) || (pageNum > 1 && limitNum < 0))
      && (r.Err? ==> r.failure.Status() == UnhandledStatus)
      && (r.Ok? ==> r.value.page == pageNum && r.value.limit == limitNum && r.value.total == |selected|
                    && r.value.ids == Paginate(sorted, Skip(pageNum, limitNum), Abs(limitNum)))
    ensures r.Ok? ==> (forall id :: id in r.value.ids ==> id in selected) && Ids.Distinct(r.value.ids)
    ensures r.Ok? ==> r.value.count == |r.value.ids| <= r.value.total
    ensures limit.None? && page.None? ==>
      r.Ok? && r.value.page == 1 && r.value.limit == 10 && r.value.ids == sorted[..Min(10, |sorted|)]
  {
    var limitNum := OrDefault(limit, DefaultLimit);
    var pageNum := OrDefault(page, DefaultPage);
    var skip := Skip(pageNum, limitNum);
    var fetched := Fetch(sorted, skip, limitNum);
    if fetched.Err? then Err(fetched.failure)
    else
      OrderingLength(sorted, selected);
      WindowOfOrdering(sorted, selected, skip, Abs(limitNum));
      Ok(Page(fetched.value, |fetched.value|, pageNum, limitNum, |selected|))
  }

  /** An ordering is as long as the set it orders. */
  lemma OrderingLength(sorted: seq<string>, selected: set<string>)
    requires IsOrdering(sorted, selected)
    ensures |sorted| == |selected|
  {
    Ids.SeqSetCard(sorted);
    assert (set id | id in sorted) == selected;
  }

  /** A window of an ordering repeats no id and holds only selected ones. */
  lemma WindowOfOrdering(sorted: seq<string>, selected: set<string>, skip: nat, limit: nat)
    requires IsOrdering(sorted, selected)
    ensures var w := Paginate(sorted, skip, limit);
      Ids.Distinct(w) && (forall id :: id in w ==> id in selected)
  {
    var w := Paginate(sorted, skip, limit);
    if skip < |sorted| {
      forall i, j | 0 <= i < j < |w| ensures w[i] != w[j] {
        assert w[i] == sorted[skip + i] && w[j] == sorted[skip + j];
      }
      forall id | id in w ensures id in selected {
        var i :| 0 <= i < |w| && w[i] == id;
        assert sorted[skip + i] == id;
      }
    }
  }

  /** Pages 1..k of a listing, one after the other. */
  function FirstPages<T>(results: seq<T>, limit: nat, k: nat): seq<T> {
    if k == 0 then [] else FirstPages(results, limit, k - 1) + Paginate(results, Skip(k, limit), limit)
  }

  function Min(a: nat, b: nat): nat { if a <= b then a else b }

  /** Consecutive pages neither overlap nor leave gaps: pages 1..k together
      are exactly the first k * limit results. */
  lemma {:induction false} PagesTile<T>(results: seq<T>, limit: nat, k: nat)
    requires limit > 0
    ensures FirstPages(results, limit, k) == results[..Min(k * limit, |results|)]
  {
    if k > 0 {
      PagesTile(results, limit, k - 1);
      NextPage(results, limit, k);
    }
  }

  /** Page k starts where pages 1..k-1 end. */
  lemma NextPage<T>(results: seq<T>, limit: nat, k: PageNumber)
    requires limit > 0
    ensures results[..Min((k - 1) * limit, |results|)] + Paginate(results, Skip(k, limit), limit)
              == results[..Min(k * limit, |results|)]
  {
    var skip := Skip(k, limit);
    assert skip == (k - 1) * limit;
    assert k * limit == skip + limit;
    var w := Paginate(results, skip, limit);
    if skip < |results| {
      assert results[..skip] + results[skip..skip + |w|] == results[..skip + |w|];
    }
  }

  /** The sort argument: `sort.split(',').join(' ')` when `sort` is given,
      otherwise the listing's default order. */
  function SortSpec(sort: Option<string>, default: string): string {
    if Truthy(sort) then Strings.Join(Strings.Split(sort.value, ','), ' ') else default
  }

  /** The rewrite only turns commas into spaces, so the database receives a
      space-separated field list with the caller's fields in the caller's order. */
  lemma SortSpecRewritesCommas(sort: Option<string>, default: string)
    ensures Truthy(sort) ==> SortSpec(sort, default) == Strings.Replace(sort.value, ',', ' ')
    ensures !Truthy(sort) ==> SortSpec(sort, default) == default
  {
    if Truthy(sort) {
      Strings.JoinOfSplit(sort.value, ',', ' ');
    }
  }
}

/** The menu controller: the rating upsert of `rateMenuItem` and the filter and
    window of `getMenuItems`. */
module MenuController {
  import opened Http
  import opened MenuItemModel
  import Auth
  import Listing
  import Store

  const MenuItemNotFoundMessage: string := "Menu item not found"
  const RatingRangeMessage: string := "Rating must be a number between 1 and 5"

  // ---------------------------------------------------------------- rateMenuItem

  /** `ratings.findIndex(r => r.user === userId)`, searching from `from`. */
  function IndexOfRater(rs: seq<Rating>, user: string, from: nat): (k: int)
    requires from <= |rs|
    ensures k == -1 || from <= k < |rs|
    ensures k >= 0 ==> rs[k].user == user && forall j :: from <= j < k ==> rs[j].user != user
    ensures k == -1 ==> forall j :: from <= j < |rs| ==> rs[j].user != user
    decreases |rs| - from
  {
    if from == |rs| then -1
    else if rs[from].user == user then from
    else IndexOfRater(rs, user, from + 1)
  }

  /** The ratings after one user's rating: the user's first entry is overwritten
      in place, or a new entry is pushed. */
  function Upsert(rs: seq<Rating>, user: string, value: real, review: string, now: int): seq<Rating> {
    var k := IndexOfRater(rs, user, 0);
    if k != -1 then rs[k := rs[k].(value := value, review := review, date := now)]
    else rs + [Rating(user, value, review, now)]
  }

  /** `!rating || rating < 1 || rating > 5`; a rating of 0 is below 1. */
  predicate RatingRefused(rating: Option<real>) {
    rating.None? || rating.value < MinRating || rating.value > MaxRating
  }

  /** `rateMenuItem` */
  function RateOutcome(items: map<string, MenuItem>, id: string, caller: Auth.Principal,
                       rating: Option<real>, review: Option<string>, now: int): Result<MenuItem> {
    if id !in items then Err(HttpError(404, MenuItemNotFoundMessage))
    else if RatingRefused(rating) then Err(HttpError(400, RatingRangeMessage))
    else
      var m := items[id];
      Saved(WithAverage(m.(ratings := Upsert(m.ratings, caller.id, rating.value, OrEmpty(review), now))))
  }

  method RateMenuItem(db: Store.Database, id: string, caller: Auth.Principal,
                      rating: Option<real>, review: Option<string>, now: int) returns (r: Result<MenuItem>)
    modifies db
    ensures r == RateOutcome(old(db.menuItems), id, caller, rating, review, now)
    ensures db.menuItems == if r.Ok? then old(db.menuItems)[id := r.value] else old(db.menuItems)
    ensures db.orders == old(db.orders) && db.users == old(db.users)
  {
    if id !in db.menuItems {
      return Err(HttpError(404, MenuItemNotFoundMessage));
    }
    if RatingRefused(rating) {
      return Err(HttpError(400, RatingRangeMessage));
    }
    var menuItem := new MenuItemDocument.Hydrate(db.menuItems[id]);
    var existing := IndexOfRater(menuItem.data.ratings, caller.id, 0);
    if existing != -1 {
      menuItem.OverwriteRating(existing, rating.value, OrEmpty(review), now);
    } else {
      menuItem.PushRating(Rating(caller.id, rating.value, OrEmpty(review), now));
    }
    menuItem.CalculateAverageRating();
    r := menuItem.Save();
    if r.Ok? {
      db.menuItems := db.menuItems[id := r.value];
    }
  }

  /** 404 for an unknown item; then 400 for a missing or out-of-range rating;
      only then is the item rated and saved. */
  lemma RateDecision(items: map<string, MenuItem>, id: string, caller: Auth.Principal,
                     rating: Option<real>, review: Option<string>, now: int)
    ensures var r := RateOutcome(items, id, caller, rating, review, now);
      && (r == Err(HttpError(404, MenuItemNotFoundMessage)) <==> id !in items)
      && (r == Err(HttpError(400, RatingRangeMessage)) <==> id in items && RatingRefused(rating))
      && (r.Ok? <==> id in items && !RatingRefused(rating)
                     && ValidMenuItem(items[id].(ratings := Upsert(items[id].ratings, caller.id, rating.value, OrEmpty(review), now))))
  {
  }

  /** A rating is accepted for a stored item exactly when it lies in [1, 5],
      whole or not; the saved item carries the upserted ratings (an absent
      review stored as '') and their freshly computed average. */
  lemma RateSucceeds(items: map<string, MenuItem>, id: string, caller: Auth.Principal,
                     v: real, review: Option<string>, now: int)
    requires id in items && ValidMenuItem(items[id])
    requires MinRating <= v <= MaxRating
    ensures var r := RateOutcome(items, id, caller, Some(v), review, now);
      var rs := Upsert(items[id].ratings, caller.id, v, OrEmpty(review), now);
      && r.Ok?
      && r.value == items[id].(ratings := rs, averageRating := AverageRating(rs))
      && MinRating <= r.value.averageRating <= MaxRating
  {
    var rs := Upsert(items[id].ratings, caller.id, v, OrEmpty(review), now);
    UpsertKeepsRange(items[id].ratings, caller.id, v, OrEmpty(review), now);
    UpsertOverwritesOrAppends(items[id].ratings, caller.id, v, OrEmpty(review), now);
    AverageInRange(rs);
  }

  /** The upsert overwrites the caller's first entry, keeping the length, when
      there is one, and otherwise appends exactly one entry. */
  lemma UpsertOverwritesOrAppends(rs: seq<Rating>, user: string, value: real, review: string, now: int)
    ensures var u := Upsert(rs, user, value, review, now);
      var k := IndexOfRater(rs, user, 0);
      && (k != -1 ==> |u| == |rs| && u[k] == Rating(user, value, review, now)
                      && forall j :: 0 <= j < |rs| && j != k ==> u[j] == rs[j])
      && (k == -1 ==> |u| == |rs| + 1 && u[..|rs|] == rs && u[|rs|] == Rating(user, value, review, now))
  {
  }

  /** Every entry of another user is left exactly where and as it was, and the
      caller's own rating is the one given. */
  lemma UpsertLeavesOthers(rs: seq<Rating>, user: string, value: real, review: string, now: int)
    ensures var u := Upsert(rs, user, value, review, now);
      && (forall j :: 0 <= j < |rs| && rs[j].user != user ==> u[j] == rs[j])
      && (forall j :: |rs| <= j < |u| ==> u[j].user == user)
      && exists j :: 0 <= j < |u| && u[j] == Rating(user, value, review, now)
  {
    var k := IndexOfRater(rs, user, 0);
    if k != -1 {
      assert Upsert(rs, user, value, review, now)[k] == Rating(user, value, review, now);
    } else {
      assert Upsert(rs, user, value, review, now)[|rs|] == Rating(user, value, review, now);
    }
  }

  predicate OnePerUser(rs: seq<Rating>) {
    forall i, j :: 0 <= i < j < |rs| ==> rs[i].user != rs[j].user
  }

  /** "At most one rating per user" survives the upsert. */
  lemma UpsertKeepsOnePerUser(rs: seq<Rating>, user: string, value: real, review: string, now: int)
    requires OnePerUser(rs)
    ensures OnePerUser(Upsert(rs, user, value, review, now))
  {
    var u := Upsert(rs, user, value, review, now);
    var k := IndexOfRater(rs, user, 0);
    forall i, j | 0 <= i < j < |u| ensures u[i].user != u[j].user {
      if k == -1 && j == |rs| {
        assert u[i] == rs[i];
      }
    }
  }

  /** Ratings stay in [1, 5] when the new one is. */
  lemma UpsertKeepsRange(rs: seq<Rating>, user: string, value: real, review: string, now: int)
    requires RatingsInRange(rs) && MinRating <= value <= MaxRating
    ensures RatingsInRange(Upsert(rs, user, value, review, now))
  {
  }

  /** A first-time rater moves the average to round(10 × (sum + v) / (n + 1)) / 10;
      a repeat rater's old value is replaced in the sum. */
  lemma UpsertAverage(rs: seq<Rating>, user: string, value: real, review: string, now: int)
    ensures var u := Upsert(rs, user, value, review, now);
      var k := IndexOfRater(rs, user, 0);
      && (k == -1 ==> AverageRating(u) == RoundHalfUp((RatingSum(rs) + value) / (|rs| + 1) as real * 10.0) as real / 10.0)
      && (k != -1 ==> RatingSum(u) == RatingSum(rs) - rs[k].value + value && |u| == |rs|)
  {
    var k := IndexOfRater(rs, user, 0);
    if k == -1 {
      RatingSumAppend(rs, Rating(user, value, review, now));
    } else {
      RatingSumOverwrite(rs, k, rs[k].(value := value, review := review, date := now));
    }
  }

  // ---------------------------------------------------------------- getMenuItems

  /** The filter `getMenuItems` builds: the category string and two flags. */
  datatype MenuQuery = MenuQuery(category: Option<string>, isAvailable: Option<bool>, isVegetarian: Option<bool>)

  const DefaultMenuSort: string := "name"

  /** A field is set only when its query parameter is non-empty; the flags are
      `=== 'true'`, so any other non-empty value filters for false. */
  method BuildMenuQuery(category: Option<string>, isAvailable: Option<string>, isVegetarian: Option<string>) returns (q: MenuQuery)
    ensures q.category.Some? <==> Truthy(category)
    ensures q.isAvailable.Some? <==> Truthy(isAvailable)
    ensures q.isVegetarian.Some? <==> Truthy(isVegetarian)
    ensures q.category.Some? ==> q.category == category
    ensures q.isAvailable.Some? ==> (q.isAvailable.value <==> isAvailable.value == "true")
    ensures q.isVegetarian.Some? ==> (q.isVegetarian.value <==> isVegetarian.value == "true")
  {
    q := MenuQuery(None, None, None);
    if Truthy(category) {
      q := q.(category := category);
    }
    if Truthy(isAvailable) {
      q := q.(isAvailable := Some(isAvailable.value == "true"));
    }
    if Truthy(isVegetarian) {
      q := q.(isVegetarian := Some(isVegetarian.value == "true"));
    }
  }

  predicate MenuMatches(m: MenuItem, q: MenuQuery) {
    && (q.category.Some? ==> CategoryName(m.category) == q.category.value)
    && (q.isAvailable.Some? ==> m.isAvailable == q.isAvailable.value)
    && (q.isVegetarian.Some? ==> m.isVegetarian == q.isVegetarian.value)
  }

  function MatchingMenuItems(items: map<string, MenuItem>, q: MenuQuery): set<string> {
    set id | id in items && MenuMatches(items[id], q)
  }

  /** No filter selects the whole menu; `isAvailable=true` selects the available
      items and any other value the unavailable ones. */
  lemma MenuFilterSelection(items: map<string, MenuItem>, flag: string)
    ensures MatchingMenuItems(items, MenuQuery(None, None, None)) == items.Keys
    ensures MatchingMenuItems(items, MenuQuery(None, Some(flag == "true"), None))
              == set id | id in items && (items[id].isAvailable <==> flag == "true")
  {
  }

  /** `getMenuItems`. `sortEngine` stands for the database ordering the selected
      documents by a sort string. */
  method GetMenuItems(items: map<string, MenuItem>, category: Option<string>, isAvailable: Option<string>,
                      isVegetarian: Option<string>, sort: Option<string>, limit: Option<int>, page: Option<int>,
                      sortEngine: (set<string>, string) -> seq<string>)
    returns (query: MenuQuery, listing: Result<Listing.Page>)
    requires Listing.SortsInput(sortEngine)
    ensures query.category.Some? <==> Truthy(category)
    ensures query.isAvailable.Some? <==> Truthy(isAvailable)
    ensures query.isVegetarian.Some? <==> Truthy(isVegetarian)
    ensures query.category.Some? ==> query.category == category
    ensures query.isAvailable.Some? ==> (query.isAvailable.value <==> isAvailable.value == "true")
    ensures query.isVegetarian.Some? ==> (query.isVegetarian.value <==> isVegetarian.value == "true")
    ensures var selected := MatchingMenuItems(items, query);
      listing == Listing.Respond(selected, sortEngine(selected, Listing.SortSpec(sort, DefaultMenuSort)), limit, page)
    ensures listing.Ok? ==> forall id :: id in listing.value.ids ==> id in MatchingMenuItems(items, query)
    ensures listing.Ok? ==> listing.value.count <= listing.value.total == |MatchingMenuItems(items, query)|
    ensures limit.None? && page.None? ==> listing.Ok? && listing.value.page == 1 && listing.value.limit == 10
  {
    query := BuildMenuQuery(category, isAvailable, isVegetarian);
    var selected := MatchingMenuItems(items, query);
    var sorted := sortEngine(selected, Listing.SortSpec(sort, DefaultMenuSort));
    listing := Listing.Respond(selected, sorted, limit, page);
  }
}

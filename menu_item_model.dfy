/** The menu item document: its enumerations, field validators, ratings and the
    average rating that the `pre('save')` hook recomputes. */
module MenuItemModel {
  import opened Http
  import Strings

  datatype Category = Starter | MainCourse | Dessert | Beverage | Side | Special

  function CategoryName(c: Category): string {
    match c
    case Starter => "starter"
    case MainCourse => "main course"
    case Dessert => "dessert"
    case Beverage => "beverage"
    case Side => "side"
    case Special => "special"
  }

  function ParseCategory(t: string): (r: Option<Category>)
    ensures r.Some? ==> CategoryName(r.value) == t
    ensures r.None? ==> forall c: Category :: CategoryName(c) != t
  {
    if t == "starter" then Some(Starter)
    else if t == "main course" then Some(MainCourse)
    else if t == "dessert" then Some(Dessert)
    else if t == "beverage" then Some(Beverage)
    else if t == "side" then Some(Side)
    else if t == "special" then Some(Special)
    else None
  }

  datatype Allergen = Dairy | Eggs | Nuts | Gluten | Soy | Seafood | NoAllergen

  /** A rating value is a number; nothing requires it to be an integer. */
  datatype Rating = Rating(user: string, value: real, review: string, date: int)

  datatype MenuItem = MenuItem(
    name: string,
    description: string,
    price: int,
    image: string,
    category: Category,
    isAvailable: bool,
    preparationTime: int,
    allergens: seq<Allergen>,
    isVegetarian: bool,
    isVegan: bool,
    isGlutenFree: bool,
    calories: int,
    ratings: seq<Rating>,
    averageRating: real)

  const NameMaxLength: nat := 100
  const DescriptionMaxLength: nat := 500
  const MinRating: real := 1.0
  const MaxRating: real := 5.0

  predicate InRange(r: Rating) {
    MinRating <= r.value <= MaxRating
  }

  predicate RatingsInRange(rs: seq<Rating>) {
    forall i :: 0 <= i < |rs| ==> InRange(rs[i])
  }

  /** The schema's validators: required and bounded name and description
      (lengths in UTF-16 code units, as JavaScript counts them),
      non-negative price, every rating value in [1, 5]; the enumerations hold
      by construction. Names and descriptions are taken as already trimmed. */
  predicate ValidMenuItem(m: MenuItem) {
    && m.name != "" && Strings.Utf16Length(m.name) <= NameMaxLength
    && m.description != "" && Strings.Utf16Length(m.description) <= DescriptionMaxLength
    && m.price >= 0
    && RatingsInRange(m.ratings)
  }

  /** `ratings.reduce((total, rating) => total + rating.value, 0)` */
  function RatingSum(rs: seq<Rating>): real {
    if rs == [] then 0.0 else RatingSum(rs[..|rs| - 1]) + rs[|rs| - 1].value
  }

  /** `Math.round`: halves round up. */
  function RoundHalfUp(x: real): (n: int)
    ensures x - 0.5 < n as real <= x + 0.5
  {
    (x + 0.5).Floor
  }

  /** `calculateAverageRating`: 0 without ratings, otherwise the mean rounded
      to one decimal place. */
  function AverageRating(rs: seq<Rating>): real {
    if |rs| == 0 then 0.0
    else RoundHalfUp((RatingSum(rs) / |rs| as real) * 10.0) as real / 10.0
  }

  /** The average is always a whole number of tenths, within half a tenth of the mean. */
  lemma AverageIsRoundedMean(rs: seq<Rating>)
    requires rs != []
    ensures var mean := RatingSum(rs) / |rs| as real;
      && (AverageRating(rs) * 10.0).Floor as real == AverageRating(rs) * 10.0
      && mean - 0.05 < AverageRating(rs) <= mean + 0.05
  {
    var mean := RatingSum(rs) / |rs| as real;
    var n := RoundHalfUp(mean * 10.0);
    assert AverageRating(rs) == n as real / 10.0;
    assert AverageRating(rs) * 10.0 == n as real;
  }

  lemma {:induction false} RatingSumBounds(rs: seq<Rating>)
    requires RatingsInRange(rs)
    ensures MinRating * |rs| as real <= RatingSum(rs) <= MaxRating * |rs| as real
  {
    if rs != [] {
      RatingSumBounds(rs[..|rs| - 1]);
      assert InRange(rs[|rs| - 1]);
    }
  }

  /** With every rating in [1, 5], so is the average. */
  lemma AverageInRange(rs: seq<Rating>)
    requires rs != []
    requires RatingsInRange(rs)
    ensures MinRating <= AverageRating(rs) <= MaxRating
  {
    RatingSumBounds(rs);
    var n := |rs| as real;
    var mean := RatingSum(rs) / n;
    MeanBounds(RatingSum(rs), n);
    var x := mean * 10.0;
    assert 10.0 <= x <= 50.0;
    var k := RoundHalfUp(x);
    assert x - 0.5 < k as real <= x + 0.5;
    assert 10 <= k <= 50;
  }

  lemma MeanBounds(sum: real, n: real)
    requires n >= 1.0 && MinRating * n <= sum <= MaxRating * n
    ensures MinRating <= sum / n <= MaxRating
  {
    var m := sum / n;
    assert (m - MinRating) * n == sum - MinRating * n;
    assert (MaxRating - m) * n == MaxRating * n - sum;
  }

  /** Appending a rating adds its value to the sum. */
  lemma RatingSumAppend(rs: seq<Rating>, r: Rating)
    ensures RatingSum(rs + [r]) == RatingSum(rs) + r.value
  {
    assert (rs + [r])[..|rs|] == rs;
  }

  /** Overwriting one rating replaces its value in the sum. */
  lemma {:induction false} RatingSumOverwrite(rs: seq<Rating>, k: nat, r: Rating)
    requires k < |rs|
    ensures RatingSum(rs[k := r]) == RatingSum(rs) - rs[k].value + r.value
  {
    var last := |rs| - 1;
    if k < last {
      RatingSumOverwrite(rs[..last], k, r);
      assert rs[k := r][..last] == rs[..last][k := r];
    } else {
      assert rs[k := r][..last] == rs[..last];
    }
  }

  /** The average rating this document should carry. */
  function WithAverage(m: MenuItem): MenuItem {
    m.(averageRating := AverageRating(m.ratings))
  }

  /** The average is a function of the ratings alone, so recomputing it is idempotent
      and ignores whatever stale value the document held. */
  lemma RecomputeIdempotent(m: MenuItem, stale: real)
    ensures WithAverage(WithAverage(m)) == WithAverage(m)
    ensures WithAverage(m.(averageRating := stale)) == WithAverage(m)
  {
  }

  const ValidationMessage: string := "MenuItem validation failed"

  /** `save()`: validators first, then the hook that recomputes the average. */
  function Saved(m: MenuItem): Result<MenuItem> {
    if !ValidMenuItem(m) then Err(HttpError(UnhandledStatus, ValidationMessage))
    else Ok(WithAverage(m))
  }

  /** A save is refused, with a 500, exactly when the name is empty or longer
      than 100 UTF-16 code units, the description empty or longer than 500,
      the price negative or a rating outside [1, 5]; otherwise only the
      average changes. */
  lemma SaveEnforcesSchema(m: MenuItem)
    ensures Saved(m).Ok? <==>
      && m.name != "" && Strings.Utf16Length(m.name) <= 100
      && m.description != "" && Strings.Utf16Length(m.description) <= 500
      && m.price >= 0
      && forall i :: 0 <= i < |m.ratings| ==> 1.0 <= m.ratings[i].value <= 5.0
    ensures Saved(m).Err? ==> Saved(m) == Err(HttpError(500, "MenuItem validation failed"))
    ensures Saved(m).Ok? ==> Saved(m).value == m.(averageRating := AverageRating(m.ratings))
  {
  }

  /** A Mongoose menu item document in memory. */
  class MenuItemDocument {
    var data: MenuItem

    constructor Hydrate(m: MenuItem)
      ensures data == m
    {
      data := m;
    }

    /** `calculateAverageRating()`, assigning `averageRating` in place. */
    method CalculateAverageRating()
      modifies this
      ensures data == WithAverage(old(data))
    {
      if |data.ratings| == 0 {
        data := data.(averageRating := 0.0);
        return;
      }
      var sum := RatingSum(data.ratings);
      data := data.(averageRating := RoundHalfUp((sum / |data.ratings| as real) * 10.0) as real / 10.0);
    }

    /** `ratings[k].value = ...; ratings[k].review = ...; ratings[k].date = ...` */
    method OverwriteRating(k: nat, value: real, review: string, date: int)
      requires k < |data.ratings|
      modifies this
      ensures data == old(data).(ratings := old(data).ratings[k := old(data).ratings[k].(value := value, review := review, date := date)])
    {
      data := data.(ratings := data.ratings[k := data.ratings[k].(value := value)]);
      data := data.(ratings := data.ratings[k := data.ratings[k].(review := review)]);
      data := data.(ratings := data.ratings[k := data.ratings[k].(date := date)]);
    }

    /** `ratings.push(r)` */
    method PushRating(r: Rating)
      modifies this
      ensures data == old(data).(ratings := old(data).ratings + [r])
    {
      data := data.(ratings := data.ratings + [r]);
    }

    method Save() returns (r: Result<MenuItem>)
      modifies this
      ensures r == Saved(old(data))
      ensures r.Ok? ==> data == r.value
      ensures r.Err? ==> data == old(data)
    {
      if !ValidMenuItem(data) {
        return Err(HttpError(UnhandledStatus, ValidationMessage));
      }
      CalculateAverageRating();
      r := Ok(data);
    }
  }
}

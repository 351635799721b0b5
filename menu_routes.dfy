/** `/api/menu`: the `menuItemValidation` chain and the route-to-role table. */
module MenuRoutes {
  import opened Http
  import opened Routing
  import Auth
  import MenuItemModel

  /** The validated fields of a create request, as the strings the validators
      see (a missing field reads as ""). */
  datatype MenuBody = MenuBody(name: string, description: string, price: string, category: string)

  const NameMessage: string := "Name is required"
  const DescriptionMessage: string := "Description is required"
  const PriceMessage: string := "Price must be a number"
  const CategoryMessage: string := "Invalid category"

  predicate IsDigit(c: char) { '0' <= c <= '9' }

  predicate DigitsAndDots(s: string) {
    s == [] || ((IsDigit(s[0]) || s[0] == '.') && DigitsAndDots(s[1..]))
  }

  function DotCount(s: string): nat {
    if s == [] then 0 else (if s[0] == '.' then 1 else 0) + DotCount(s[1..])
  }

  /** `isNumeric`: an optional sign, then digits with at most one decimal
      point, ending in a digit (`^[+-]?([0-9]*[.])?[0-9]+$`). */
  predicate IsNumeric(s: string) {
    var t := if |s| > 0 && (s[0] == '+' || s[0] == '-') then s[1..] else s;
    && |t| >= 1
    && IsDigit(t[|t| - 1])
    && DigitsAndDots(t)
    && DotCount(t) <= 1
  }

  /** The messages `validationResult` reports, in the order of the chain. */
  function MenuValidation(body: MenuBody): seq<string> {
    (if body.name == "" then [NameMessage] else [])
    + (if body.description == "" then [DescriptionMessage] else [])
    + (if !IsNumeric(body.price) then [PriceMessage] else [])
    + (if MenuItemModel.ParseCategory(body.category).None? then [CategoryMessage] else [])
  }

  /** The chain reports nothing exactly when name and description are given,
      the price is numeric and the category is one of the six. */
  lemma MenuValidationAccepts(body: MenuBody)
    ensures MenuValidation(body) == [] <==>
      body.name != "" && body.description != "" && IsNumeric(body.price)
      && exists c: MenuItemModel.Category :: MenuItemModel.CategoryName(c) == body.category
  {
    var p := MenuItemModel.ParseCategory(body.category);
    if p.Some? {
      assert MenuItemModel.CategoryName(p.value) == body.category;
    }
  }

  predicate AllDigits(s: string) {
    forall i :: 0 <= i < |s| ==> IsDigit(s[i])
  }

  lemma {:induction false} DigitsAndDotsAppend(a: string, b: string)
    ensures DigitsAndDots(a + b) <==> DigitsAndDots(a) && DigitsAndDots(b)
    ensures DotCount(a + b) == DotCount(a) + DotCount(b)
  {
    if a != [] {
      assert (a + b)[1..] == a[1..] + b;
      DigitsAndDotsAppend(a[1..], b);
    } else {
      assert a + b == b;
    }
  }

  lemma {:induction false} DigitsOnly(s: string)
    requires AllDigits(s)
    ensures DigitsAndDots(s) && DotCount(s) == 0
  {
    if s != [] {
      DigitsOnly(s[1..]);
    }
  }

  /** After a sign, `isNumeric` judges the rest of the string on its own. */
  lemma SignedNumeric(sign: string, t: string)
    requires sign == "" || sign == "+" || sign == "-"
    requires |t| >= 1 && (IsDigit(t[0]) || t[0] == '.')
    ensures IsNumeric(sign + t) <==> IsDigit(t[|t| - 1]) && DigitsAndDots(t) && DotCount(t) <= 1
  {
    assert (sign + t)[|sign|..] == t;
  }

  /** The strings of the pattern's two shapes pass, whatever their digits: an
      optional sign, then either digits, or digits (possibly none), a point and
      at least one digit. The same strings ending in a point fail. */
  lemma NumericForms(sign: string, whole: string, fraction: string)
    requires sign == "" || sign == "+" || sign == "-"
    requires AllDigits(whole) && AllDigits(fraction) && fraction != []
    ensures IsNumeric(sign + fraction)
    ensures IsNumeric(sign + (whole + "." + fraction))
    ensures !IsNumeric(sign + (whole + "."))
    ensures !IsNumeric(sign + (whole + "." + fraction + "."))
  {
    DigitsOnly(whole);
    DigitsOnly(fraction);
    assert IsDigit(fraction[0]);
    SignedNumeric(sign, fraction);
    PointForms(whole, fraction);
    SignedNumeric(sign, whole + ".");
    SignedNumeric(sign, whole + "." + fraction);
    SignedNumeric(sign, whole + "." + fraction + ".");
  }

  /** The unsigned shapes with a point: what `isNumeric` looks at in each. */
  lemma PointForms(whole: string, fraction: string)
    requires AllDigits(whole) && AllDigits(fraction) && fraction != []
    requires DigitsAndDots(whole) && DotCount(whole) == 0
    requires DigitsAndDots(fraction) && DotCount(fraction) == 0
    ensures var point := whole + ".";
      && (IsDigit(point[0]) || point[0] == '.')
      && DigitsAndDots(point) && DotCount(point) == 1 && point[|point| - 1] == '.'
    ensures var decimal := whole + "." + fraction;
      && (IsDigit(decimal[0]) || decimal[0] == '.')
      && DigitsAndDots(decimal) && DotCount(decimal) == 1 && IsDigit(decimal[|decimal| - 1])
    ensures var twice := whole + "." + fraction + ".";
      && (IsDigit(twice[0]) || twice[0] == '.') && twice[|twice| - 1] == '.'
  {
    assert DigitsAndDots(".") && DotCount(".") == 1 by {
      assert "."[1..] == "";
    }
    var point := whole + ".";
    var decimal := point + fraction;
    DigitsAndDotsAppend(whole, ".");
    DigitsAndDotsAppend(point, fraction);
    assert IsDigit(point[0]) || point[0] == '.' by {
      if whole != [] { assert point[0] == whole[0]; }
    }
    assert decimal[0] == point[0] && (decimal + ".")[0] == point[0];
    assert decimal[|decimal| - 1] == fraction[|fraction| - 1];
  }

  /** A few prices `isNumeric` accepts and refuses. */
  lemma NumericExamples()
    ensures IsNumeric("12") && IsNumeric("-3.50") && IsNumeric(".5")
    ensures !IsNumeric("") && !IsNumeric("5.") && !IsNumeric("1.2.3") && !IsNumeric("1e3")
  {
    assert "-3.50"[1..] == "3.50";
    assert "3.50"[1..] == ".50" && ".50"[1..] == "50" && "50"[1..] == "0" && "0"[1..] == "";
    assert DigitsAndDots("3.50") && DotCount("3.50") == 1;
    assert "12"[1..] == "2" && "2"[1..] == "";
    assert DigitsAndDots("12");
    assert ".5"[1..] == "5" && "5"[1..] == "";
    assert DigitsAndDots(".5") && DotCount(".5") == 1;
    assert "1.2.3"[1..] == ".2.3" && ".2.3"[1..] == "2.3" && "2.3"[1..] == ".3" && ".3"[1..] == "3" && "3"[1..] == "";
    assert DotCount("1.2.3") == 2;
    assert "1e3"[1..] == "e3";
    assert !DigitsAndDots("e3");
  }

  datatype MenuEndpoint = GetMenuItems | CreateMenuItem | GetMenuItem | UpdateMenuItem | DeleteMenuItem | RateMenuItem


  /** The routes in registration order. Updating has no validator chain. */
  const Routes: seq<Route<MenuEndpoint>> := [
    Route([], Get, GetMenuItems, []),
    Route([], Post, CreateMenuItem, [Protect, Authorize(Auth.StaffRoles), Upload, Validate]),
    Route([Param], Get, GetMenuItem, []),
    Route([Param], Put, UpdateMenuItem, [Protect, Authorize(Auth.StaffRoles), Upload]),
    Route([Param], Delete, DeleteMenuItem, [Protect, Authorize(Auth.AdminRoles)]),
    Route([Param, Lit("rate")], Post, RateMenuItem, [Protect])
  ]

  /** Listing and reading menu items are public: no caller is needed, and a
      failed authentication does not matter. */
  lemma PublicRoutes(id: string, authenticated: Result<Auth.Principal>, uploadError: Option<string>)
    requires id != ""
    ensures Dispatch(Routes, Get, [], authenticated, uploadError) == Ok(Admission(GetMenuItems, None))
    ensures Dispatch(Routes, Get, [id], authenticated, uploadError) == Ok(Admission(GetMenuItem, None))
  {
    FirstHandlerIs(Routes, Get, [], 0, 0);
    assert PathMatches(Routes[2].path, [id]);
    FirstHandlerIs(Routes, Get, [id], 0, 2);
  }

  /** Creating and updating need admin or staff and a multipart body multer
      accepts, failing with 500 otherwise; deleting needs admin; only creating
      runs the validator chain. */
  lemma StaffRoutes(id: string, authenticated: Result<Auth.Principal>, uploadError: Option<string>)
    requires id != ""
    ensures var r := Dispatch(Routes, Post, [], authenticated, uploadError);
      && (r.Ok? <==> authenticated.Ok? && authenticated.value.role in Auth.StaffRoles && uploadError.None?)
      && (r.Ok? ==> r.value == Admission(CreateMenuItem, Some(authenticated.value)))
      && (authenticated.Ok? && authenticated.value.role in Auth.StaffRoles && uploadError.Some? ==>
            r == Err(HttpError(UnhandledStatus, uploadError.value)))
    ensures var r := Dispatch(Routes, Put, [id], authenticated, uploadError);
      && (r.Ok? <==> authenticated.Ok? && authenticated.value.role in Auth.StaffRoles && uploadError.None?)
      && (r.Ok? ==> r.value == Admission(UpdateMenuItem, Some(authenticated.value)))
      && (authenticated.Ok? && authenticated.value.role in Auth.StaffRoles && uploadError.Some? ==>
            r == Err(HttpError(UnhandledStatus, uploadError.value)))
    ensures var r := Dispatch(Routes, Delete, [id], authenticated, uploadError);
      (r.Ok? <==> authenticated.Ok? && authenticated.value.role == "admin")
      && (r.Ok? ==> r.value == Admission(DeleteMenuItem, Some(authenticated.value)))
    ensures Validate in Routes[1].stages && Validate !in Routes[3].stages
  {
    CreateGate(authenticated, uploadError);
    UpdateGate(id, authenticated, uploadError);
    DeleteGate(id, authenticated, uploadError);
  }

  lemma CreateGate(authenticated: Result<Auth.Principal>, uploadError: Option<string>)
    ensures var r := Dispatch(Routes, Post, [], authenticated, uploadError);
      && (r.Ok? <==> authenticated.Ok? && authenticated.value.role in Auth.StaffRoles && uploadError.None?)
      && (r.Ok? ==> r.value == Admission(CreateMenuItem, Some(authenticated.value)))
      && (authenticated.Ok? && authenticated.value.role in Auth.StaffRoles && uploadError.Some? ==>
            r == Err(HttpError(UnhandledStatus, uploadError.value)))
  {
    FirstHandlerIs(Routes, Post, [], 0, 1);
    ProtectThenAuthorize(Auth.StaffRoles, authenticated, uploadError, [Upload, Validate]);
    assert [Protect, Authorize(Auth.StaffRoles)] + [Upload, Validate] == Routes[1].stages;
  }

  lemma UpdateGate(id: string, authenticated: Result<Auth.Principal>, uploadError: Option<string>)
    requires id != ""
    ensures var r := Dispatch(Routes, Put, [id], authenticated, uploadError);
      && (r.Ok? <==> authenticated.Ok? && authenticated.value.role in Auth.StaffRoles && uploadError.None?)
      && (r.Ok? ==> r.value == Admission(UpdateMenuItem, Some(authenticated.value)))
      && (authenticated.Ok? && authenticated.value.role in Auth.StaffRoles && uploadError.Some? ==>
            r == Err(HttpError(UnhandledStatus, uploadError.value)))
  {
    assert PathMatches(Routes[3].path, [id]);
    FirstHandlerIs(Routes, Put, [id], 0, 3);
    ProtectThenAuthorize(Auth.StaffRoles, authenticated, uploadError, [Upload]);
    assert [Protect, Authorize(Auth.StaffRoles)] + [Upload] == Routes[3].stages;
  }

  lemma DeleteGate(id: string, authenticated: Result<Auth.Principal>, uploadError: Option<string>)
    requires id != ""
    ensures var r := Dispatch(Routes, Delete, [id], authenticated, uploadError);
      (r.Ok? <==> authenticated.Ok? && authenticated.value.role == "admin")
      && (r.Ok? ==> r.value == Admission(DeleteMenuItem, Some(authenticated.value)))
  {
    assert PathMatches(Routes[4].path, [id]);
    FirstHandlerIs(Routes, Delete, [id], 0, 4);
    ProtectThenAuthorize(Auth.AdminRoles, authenticated, uploadError, []);
    assert [Protect, Authorize(Auth.AdminRoles)] + [] == Routes[4].stages;
  }

  /** Rating needs only authentication. */
  lemma RateRoute(id: string, authenticated: Result<Auth.Principal>, uploadError: Option<string>)
    requires id != ""
    ensures var r := Dispatch(Routes, Post, [id, "rate"], authenticated, uploadError);
      (authenticated.Err? ==> r == Err(authenticated.failure))
      && (authenticated.Ok? ==> r == Ok(Admission(RateMenuItem, Some(authenticated.value))))
  {
    assert PathMatches(Routes[5].path, [id, "rate"]);
    FirstHandlerIs(Routes, Post, [id, "rate"], 0, 5);
  }
}

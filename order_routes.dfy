/** `/api/orders`: the `orderValidation` chain and the route-to-role table. */
module OrderRoutes {
  import opened Http
  import opened Routing
  import Auth
  import OrderModel

  /** One requested line as the client sends it. `quantity` is None when it
      is not an integer. */
  datatype LineRequest = LineRequest(menuItem: string, quantity: Option<int>, specialInstructions: Option<string>)

  /** The body of a create request; `items` is None when it is not an array,
      and a missing string field reads as "". */
  datatype OrderBody = OrderBody(
    items: Option<seq<LineRequest>>,
    orderType: string,
    tableNumber: Option<int>,
    deliveryAddress: Option<OrderModel.Address>,
    specialInstructions: Option<string>)

  const ItemsMessage: string := "Items must be an array"
  const MenuItemMessage: string := "Menu item ID is required"
  const QuantityMessage: string := "Quantity must be at least 1"
  const OrderTypeMessage: string := "Invalid order type"

  predicate QuantityOk(l: LineRequest) {
    l.quantity.Some? && l.quantity.value >= 1
  }

  /** `items.*.menuItem` must not be empty: one message per offending line. */
  function MenuItemErrors(lines: seq<LineRequest>): seq<string> {
    if lines == [] then []
    else (if lines[0].menuItem == "" then [MenuItemMessage] else []) + MenuItemErrors(lines[1..])
  }

  /** `items.*.quantity` must be an integer of at least 1. */
  function QuantityErrors(lines: seq<LineRequest>): seq<string> {
    if lines == [] then []
    else (if QuantityOk(lines[0]) then [] else [QuantityMessage]) + QuantityErrors(lines[1..])
  }

  /** The messages `validationResult` reports, in the order of the chain. */
  function OrderValidation(body: OrderBody): seq<string> {
    var lines := if body.items.Some? then body.items.value else [];
    (if body.items.None? then [ItemsMessage] else [])
    + MenuItemErrors(lines)
    + QuantityErrors(lines)
    + (if OrderModel.ParseOrderType(body.orderType).None? then [OrderTypeMessage] else [])
  }

  /** The shape the chain demands, stated directly. An empty array is allowed. */
  predicate WellFormedOrder(body: OrderBody) {
    && body.items.Some?
    && (forall i :: 0 <= i < |body.items.value| ==> body.items.value[i].menuItem != "" && QuantityOk(body.items.value[i]))
    && OrderModel.ParseOrderType(body.orderType).Some?
  }

  lemma {:induction false} MenuItemErrorsEmpty(lines: seq<LineRequest>)
    ensures MenuItemErrors(lines) == [] <==> forall i :: 0 <= i < |lines| ==> lines[i].menuItem != ""
  {
    if lines != [] {
      MenuItemErrorsEmpty(lines[1..]);
      assert forall i :: 1 <= i < |lines| ==> lines[i] == lines[1..][i - 1];
    }
  }

  lemma {:induction false} QuantityErrorsEmpty(lines: seq<LineRequest>)
    ensures QuantityErrors(lines) == [] <==> forall i :: 0 <= i < |lines| ==> QuantityOk(lines[i])
  {
    if lines != [] {
      QuantityErrorsEmpty(lines[1..]);
      assert forall i :: 1 <= i < |lines| ==> lines[i] == lines[1..][i - 1];
    }
  }

  /** The chain reports nothing exactly for well-formed bodies. */
  lemma OrderValidationAccepts(body: OrderBody)
    ensures OrderValidation(body) == [] <==> WellFormedOrder(body)
  {
    var lines := if body.items.Some? then body.items.value else [];
    MenuItemErrorsEmpty(lines);
    QuantityErrorsEmpty(lines);
  }

  datatype OrderEndpoint = GetOrders | CreateOrder | GetMyOrders | GetOrder | UpdateOrder | DeleteOrder | UpdateOrderStatus


  /** The routes in registration order; `/myorders` comes before `/:id`. */
  const Routes: seq<Route<OrderEndpoint>> := [
    Route([], Get, GetOrders, [Protect, Authorize(Auth.StaffRoles)]),
    Route([], Post, CreateOrder, [Protect, Validate]),
    Route([Lit("myorders")], Get, GetMyOrders, [Protect]),
    Route([Param], Get, GetOrder, [Protect]),
    Route([Param], Put, UpdateOrder, [Protect]),
    Route([Param], Delete, DeleteOrder, [Protect, Authorize(Auth.AdminRoles)]),
    Route([Param, Lit("status")], Put, UpdateOrderStatus, [Protect, Authorize(Auth.StaffRoles)])
  ]

  predicate AdmittedAs(r: Result<Admission<OrderEndpoint>>, e: OrderEndpoint, p: Auth.Principal) {
    r == Ok(Admission(e, Some(p)))
  }

  /** Listing all orders and changing a status need admin or staff; deleting needs admin. */
  lemma StaffRoutes(id: string, authenticated: Result<Auth.Principal>, uploadError: Option<string>)
    requires id != ""
    ensures var r := Dispatch(Routes, Get, [], authenticated, uploadError);
      (r.Ok? <==> authenticated.Ok? && authenticated.value.role in Auth.StaffRoles)
      && (r.Ok? ==> AdmittedAs(r, GetOrders, authenticated.value))
    ensures var r := Dispatch(Routes, Put, [id, "status"], authenticated, uploadError);
      (r.Ok? <==> authenticated.Ok? && authenticated.value.role in Auth.StaffRoles)
      && (r.Ok? ==> AdmittedAs(r, UpdateOrderStatus, authenticated.value))
    ensures var r := Dispatch(Routes, Delete, [id], authenticated, uploadError);
      (r.Ok? <==> authenticated.Ok? && authenticated.value.role == "admin")
      && (r.Ok? ==> AdmittedAs(r, DeleteOrder, authenticated.value))
  {
    assert FirstHandler(Routes, Get, [], 0) == Some(0);
    ProtectThenAuthorize(Auth.StaffRoles, authenticated, uploadError, []);
    assert [Protect, Authorize(Auth.StaffRoles)] + [] == [Protect, Authorize(Auth.StaffRoles)];
    assert PathMatches(Routes[6].path, [id, "status"]);
    FirstHandlerIs(Routes, Put, [id, "status"], 0, 6);
    assert PathMatches(Routes[5].path, [id]);
    FirstHandlerIs(Routes, Delete, [id], 0, 5);
    ProtectThenAuthorize(Auth.AdminRoles, authenticated, uploadError, []);
    assert [Protect, Authorize(Auth.AdminRoles)] + [] == [Protect, Authorize(Auth.AdminRoles)];
  }

  /** Creating, reading and updating one order and listing one's own orders
      need only authentication; ownership is the controller's check. */
  lemma AuthenticatedRoutes(id: string, authenticated: Result<Auth.Principal>, uploadError: Option<string>)
    requires id != ""
    ensures authenticated.Err? ==>
      && Dispatch(Routes, Post, [], authenticated, uploadError) == Err(authenticated.failure)
      && Dispatch(Routes, Get, ["myorders"], authenticated, uploadError) == Err(authenticated.failure)
      && Dispatch(Routes, Get, [id], authenticated, uploadError) == Err(authenticated.failure)
      && Dispatch(Routes, Put, [id], authenticated, uploadError) == Err(authenticated.failure)
    ensures authenticated.Ok? ==>
      && AdmittedAs(Dispatch(Routes, Post, [], authenticated, uploadError), CreateOrder, authenticated.value)
      && AdmittedAs(Dispatch(Routes, Get, ["myorders"], authenticated, uploadError), GetMyOrders, authenticated.value)
      && (!SameIgnoringCase(id, "myorders") ==> AdmittedAs(Dispatch(Routes, Get, [id], authenticated, uploadError), GetOrder, authenticated.value))
      && AdmittedAs(Dispatch(Routes, Put, [id], authenticated, uploadError), UpdateOrder, authenticated.value)
  {
    FirstHandlerIs(Routes, Post, [], 0, 1);
    MyOrdersBeforeIdHandlers();
    if !SameIgnoringCase(id, "myorders") {
      assert Routes[2].path[0] == Lit("myorders");
      assert !PathMatches(Routes[2].path, [id]);
      assert PathMatches(Routes[3].path, [id]);
      FirstHandlerIs(Routes, Get, [id], 0, 3);
    }
    assert PathMatches(Routes[4].path, [id]);
    FirstHandlerIs(Routes, Put, [id], 0, 4);
  }

  /** Because `/myorders` is registered first, GET /myorders lists one's own
      orders instead of reading an order with id "myorders"; a PUT to the
      same path still falls through to `/:id`. */
  lemma MyOrdersBeforeId(p: Auth.Principal, uploadError: Option<string>)
    ensures AdmittedAs(Dispatch(Routes, Get, ["myorders"], Ok(p), uploadError), GetMyOrders, p)
    ensures AdmittedAs(Dispatch(Routes, Put, ["myorders"], Ok(p), uploadError), UpdateOrder, p)
  {
    MyOrdersBeforeIdHandlers();
  }

  /** The router is case-insensitive and not strict, so `/MyOrders` and
      `/myorders/` also list one's own orders. */
  lemma MyOrdersAnyCase(p: Auth.Principal, segment: string, uploadError: Option<string>)
    requires SameIgnoringCase(segment, "myorders")
    ensures AdmittedAs(Dispatch(Routes, Get, [segment], Ok(p), uploadError), GetMyOrders, p)
    ensures AdmittedAs(Dispatch(Routes, Get, [segment, ""], Ok(p), uploadError), GetMyOrders, p)
  {
    assert SegmentsMatch(Routes[2].path, [segment]);
    FirstHandlerIs(Routes, Get, [segment], 0, 2);
    assert [segment, ""][..1] == [segment];
    assert PathMatches(Routes[2].path, [segment, ""]);
    FirstHandlerIs(Routes, Get, [segment, ""], 0, 2);
  }

  lemma MyOrdersBeforeIdHandlers()
    ensures FirstHandler(Routes, Get, ["myorders"], 0) == Some(2)
    ensures FirstHandler(Routes, Put, ["myorders"], 0) == Some(4)
  {
    assert PathMatches(Routes[2].path, ["myorders"]);
    FirstHandlerIs(Routes, Get, ["myorders"], 0, 2);
    assert PathMatches(Routes[4].path, ["myorders"]);
    FirstHandlerIs(Routes, Put, ["myorders"], 0, 4);
  }

  /** An empty item list passes the chain. */
  lemma EmptyItemsAccepted(body: OrderBody)
    requires body.items == Some([])
    requires OrderModel.ParseOrderType(body.orderType).Some?
    ensures OrderValidation(body) == []
  {
  }
}

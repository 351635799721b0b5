/** The order controller: creation with the catalog snapshot, the owner-or-staff
    checks, pending-only edits, status changes through `save()`, deletion and listing. */
module OrderController {
  import opened Http
  import opened OrderModel
  import MenuItemModel
  import UserModel
  import opened Auth
  import opened OrderRoutes
  import Listing
  import Ids
  import Store

  const OrderNotFoundMessage: string := "Order not found"
  const AccessRefusedMessage: string := "Not authorized to access this order"
  const UpdateRefusedMessage: string := "Not authorized to update this order"
  const NotPendingMessage: string := "Order can only be updated when in pending status"
  const ItemsNotFoundMessage: string := "One or more menu items not found"
  const InvalidStatusMessage: string := "Invalid status"

  function UnavailableMessage(name: string): string {
    name + " is currently not available"
  }

  type Catalog = map<string, MenuItemModel.MenuItem>

  // ---------------------------------------------------------------- catalog lookup

  /** `items.map(item => item.menuItem)` */
  function MenuItemIds(lines: seq<LineRequest>): (ids: seq<string>)
    ensures |ids| == |lines| && forall i :: 0 <= i < |lines| ==> ids[i] == lines[i].menuItem
  {
    seq(|lines|, i requires 0 <= i < |lines| => lines[i].menuItem)
  }

  /** The catalog documents `MenuItem.find({_id: {$in: ids}})` returns, by id:
      each matching item once, however often it was requested. */
  function FoundIds(ids: seq<string>, catalog: Catalog): set<string> {
    set id | id in ids && id in catalog
  }

  /** Every requested id names a catalog item, and none is requested twice. */
  predicate AllResolvable(ids: seq<string>, catalog: Catalog) {
    (forall i :: 0 <= i < |ids| ==> ids[i] in catalog) && Ids.Distinct(ids)
  }

  /** The length check `menuItems.length !== menuItemIds.length` fails exactly
      when some id is unknown or some id is repeated. */
  lemma FoundAllIff(ids: seq<string>, catalog: Catalog)
    ensures |FoundIds(ids, catalog)| == |ids| <==> AllResolvable(ids, catalog)
  {
    Ids.SeqSetCard(ids);
    var all := set x | x in ids;
    var found := FoundIds(ids, catalog);
    assert found <= all;
    if forall i :: 0 <= i < |ids| ==> ids[i] in catalog {
      assert found == all;
    } else {
      var i :| 0 <= i < |ids| && ids[i] !in catalog;
      assert ids[i] in all - found;
      assert all == found + (all - found);
      assert |all| == |found| + |all - found|;
    }
  }

  /** The first line, from `from` on, whose catalog item is not available. */
  function FirstUnavailable(lines: seq<LineRequest>, catalog: Catalog, from: nat): (r: Option<nat>)
    requires from <= |lines|
    requires forall i :: 0 <= i < |lines| ==> lines[i].menuItem in catalog
    ensures r.Some? ==> from <= r.value < |lines| && !catalog[lines[r.value].menuItem].isAvailable
    ensures r.Some? ==> forall j :: from <= j < r.value ==> catalog[lines[j].menuItem].isAvailable
    ensures r.None? ==> forall j :: from <= j < |lines| ==> catalog[lines[j].menuItem].isAvailable
    decreases |lines| - from
  {
    if from == |lines| then None
    else if !catalog[lines[from].menuItem].isAvailable then Some(from)
    else FirstUnavailable(lines, catalog, from + 1)
  }

  /** The frozen copy of one line: name and price from the catalog, quantity
      from the request, per-line notes defaulting to ''. */
  function SnapshotLine(line: LineRequest, item: MenuItemModel.MenuItem): OrderItem
    requires line.quantity.Some?
  {
    OrderItem(line.menuItem, item.name, item.price, line.quantity.value, OrEmpty(line.specialInstructions))
  }

  predicate Resolved(lines: seq<LineRequest>, catalog: Catalog) {
    forall i :: 0 <= i < |lines| ==> lines[i].menuItem in catalog && lines[i].quantity.Some?
  }

  function Snapshot(lines: seq<LineRequest>, catalog: Catalog): (items: seq<OrderItem>)
    requires Resolved(lines, catalog)
  {
    seq(|lines|, i requires 0 <= i < |lines| => SnapshotLine(lines[i], catalog[lines[i].menuItem]))
  }

  /** The loop of `createOrder`: it stops at the first unavailable item, and
      otherwise yields the snapshot lines and their running total. */
  method BuildOrderLines(lines: seq<LineRequest>, catalog: Catalog) returns (r: Result<seq<OrderItem>>, total: int)
    requires Resolved(lines, catalog)
    ensures r.Err? <==> FirstUnavailable(lines, catalog, 0).Some?
    ensures r.Err? ==>
      r.failure == HttpError(400, UnavailableMessage(catalog[lines[FirstUnavailable(lines, catalog, 0).value].menuItem].name))
    ensures r.Ok? ==> r.value == Snapshot(lines, catalog) && total == ItemsTotal(r.value)
  {
    var orderItems: seq<OrderItem> := [];
    total := 0;
    var i := 0;
    while i < |lines|
      invariant 0 <= i <= |lines|
      invariant orderItems == Snapshot(lines, catalog)[..i]
      invariant total == ItemsTotal(orderItems)
      invariant forall j :: 0 <= j < i ==> catalog[lines[j].menuItem].isAvailable
    {
      var menuItem := catalog[lines[i].menuItem];
      if !menuItem.isAvailable {
        r := Err(HttpError(400, UnavailableMessage(menuItem.name)));
        return;
      }
      var orderItem := SnapshotLine(lines[i], menuItem);
      ItemsTotalAppend(orderItems, orderItem);
      orderItems := orderItems + [orderItem];
      total := total + menuItem.price * lines[i].quantity.value;
      i := i + 1;
    }
    assert orderItems == Snapshot(lines, catalog);
    r := Ok(orderItems);
  }

  // ---------------------------------------------------------------- createOrder

  /** The record handed to `Order.create`. */
  function NewOrder(user: string, items: seq<OrderItem>, total: int, body: OrderBody, kind: OrderType, now: int): Order {
    Order(
      user := user,
      items := items,
      tableNumber := if kind == DineIn then body.tableNumber else None,
      totalAmount := total,
      status := DefaultStatus,
      paymentMethod := DefaultPaymentMethod,
      paymentStatus := DefaultPaymentStatus,
      orderType := kind,
      deliveryAddress := if kind == Delivery then body.deliveryAddress else None,
      deliveredAt := None,
      specialInstructions := body.specialInstructions,
      orderHistory := [HistoryEntry(Pending, now, CreatedNote)])
  }

  /** `createOrder`. Whether Mongoose counts the defaulted `status` of a new
      document as modified is a parameter. */
  function CreateOrderOutcome(catalog: Catalog, user: string, body: OrderBody, now: int, defaultStatusModified: bool): Result<Order> {
    var errors := OrderValidation(body);
    if errors != [] then Err(ValidationFailed(errors))
    else
      OrderValidationAccepts(body);
      var lines := body.items.value;
      var ids := MenuItemIds(lines);
      if |FoundIds(ids, catalog)| != |ids| then Err(HttpError(400, ItemsNotFoundMessage))
      else
        FoundAllIff(ids, catalog);
        match FirstUnavailable(lines, catalog, 0)
        case Some(k) => Err(HttpError(400, UnavailableMessage(catalog[lines[k].menuItem].name)))
        case None =>
          var items := Snapshot(lines, catalog);
          Saved(NewOrder(user, items, ItemsTotal(items), body, ParseOrderType(body.orderType).value, now), defaultStatusModified, now)
  }

  method CreateOrder(db: Store.Database, caller: Principal, body: OrderBody, now: int, defaultStatusModified: bool, newId: string)
    returns (r: Result<Order>)
    requires newId !in db.orders
    modifies db
    ensures r == CreateOrderOutcome(old(db.menuItems), caller.id, body, now, defaultStatusModified)
    ensures db.orders == if r.Ok? then old(db.orders)[newId := r.value] else old(db.orders)
    ensures db.menuItems == old(db.menuItems) && db.users == old(db.users)
  {
    var errors := OrderValidation(body);
    if errors != [] {
      return Err(ValidationFailed(errors));
    }
    OrderValidationAccepts(body);
    var lines := body.items.value;
    var ids := MenuItemIds(lines);
    var menuItems := FoundIds(ids, db.menuItems);
    if |menuItems| != |ids| {
      return Err(HttpError(400, ItemsNotFoundMessage));
    }
    FoundAllIff(ids, db.menuItems);
    var built, totalAmount := BuildOrderLines(lines, db.menuItems);
    if built.Err? {
      return Err(built.failure);
    }
    var kind := ParseOrderType(body.orderType).value;
    var doc := new OrderDocument.Build(NewOrder(caller.id, built.value, totalAmount, body, kind, now), defaultStatusModified);
    r := doc.Save(now);
    if r.Ok? {
      db.orders := db.orders[newId := r.value];
    }
  }

  /** The decision table of `createOrder`: validation errors first, then the
      length check (an unknown or a repeated id), then the first unavailable
      line in request order, then the save. */
  lemma CreateOrderDecision(catalog: Catalog, user: string, body: OrderBody, now: int, flag: bool)
    ensures var r := CreateOrderOutcome(catalog, user, body, now, flag);
      && (OrderValidation(body) != [] ==> r == Err(ValidationFailed(OrderValidation(body))))
      && (WellFormedOrder(body) && !AllResolvable(MenuItemIds(body.items.value), catalog) ==>
            r == Err(HttpError(400, ItemsNotFoundMessage)))
      && (WellFormedOrder(body) && AllResolvable(MenuItemIds(body.items.value), catalog) ==>
            Resolved(body.items.value, catalog)
            && var lines := body.items.value;
            match FirstUnavailable(lines, catalog, 0)
            case Some(k) =>
              && (forall j :: 0 <= j < k ==> catalog[lines[j].menuItem].isAvailable)
              && r == Err(HttpError(400, UnavailableMessage(catalog[lines[k].menuItem].name)))
            case None =>
              var items := Snapshot(lines, catalog);
              r == Saved(NewOrder(user, items, ItemsTotal(items), body, ParseOrderType(body.orderType).value, now), flag, now))
  {
    OrderValidationAccepts(body);
    if WellFormedOrder(body) {
      FoundAllIff(MenuItemIds(body.items.value), catalog);
    }
  }

  /** A created order's lines are the snapshot: the catalog's name and price,
      the requested quantity, '' for a missing note; every line was available. */
  lemma CreateOrderSnapshots(catalog: Catalog, user: string, body: OrderBody, now: int, flag: bool)
    requires CreateOrderOutcome(catalog, user, body, now, flag).Ok?
    ensures WellFormedOrder(body)
    ensures var o := CreateOrderOutcome(catalog, user, body, now, flag).value;
      var lines := body.items.value;
      && |o.items| == |lines|
      && forall i :: 0 <= i < |lines| ==>
           && lines[i].menuItem in catalog
           && catalog[lines[i].menuItem].isAvailable
           && o.items[i].menuItem == lines[i].menuItem
           && o.items[i].name == catalog[lines[i].menuItem].name
           && o.items[i].price == catalog[lines[i].menuItem].price
           && Some(o.items[i].quantity) == lines[i].quantity
           && o.items[i].specialInstructions == OrEmpty(lines[i].specialInstructions)
  {
    CreateOrderDecision(catalog, user, body, now, flag);
    OrderValidationAccepts(body);
  }

  /** A created order's total is Σ price × quantity over its lines; for an
      empty item list that is 0. */
  lemma CreateOrderTotal(catalog: Catalog, user: string, body: OrderBody, now: int, flag: bool)
    requires CreateOrderOutcome(catalog, user, body, now, flag).Ok?
    ensures var o := CreateOrderOutcome(catalog, user, body, now, flag).value;
      o.totalAmount == ItemsTotal(o.items) && (o.items == [] ==> o.totalAmount == 0)
  {
    CreateOrderDecision(catalog, user, body, now, flag);
    OrderValidationAccepts(body);
  }

  /** The remaining fields of a created order: the defaults, the fields kept only
      for their order type, and the history the controller supplies (followed by
      the hook's entry only if the ORM counts the defaulted status as modified). */
  lemma CreateOrderInitialState(catalog: Catalog, user: string, body: OrderBody, now: int, flag: bool)
    requires CreateOrderOutcome(catalog, user, body, now, flag).Ok?
    ensures ParseOrderType(body.orderType).Some?
    ensures var o := CreateOrderOutcome(catalog, user, body, now, flag).value;
      var kind := ParseOrderType(body.orderType).value;
      && o.user == user
      && o.orderType == kind
      && o.status == Pending && o.paymentMethod == NotPaid && o.paymentStatus == PaymentPending
      && o.tableNumber == (if kind == DineIn then body.tableNumber else None)
      && o.deliveryAddress == (if kind == Delivery then body.deliveryAddress else None)
      && o.deliveredAt == None
      && o.specialInstructions == body.specialInstructions
      && o.orderHistory == [HistoryEntry(Pending, now, "Order created")]
           + (if flag then [HistoryEntry(Pending, now, "Order status changed to pending")] else [])
  {
    CreateOrderDecision(catalog, user, body, now, flag);
    OrderValidationAccepts(body);
    assert StatusNote(Pending) == "Order status changed to pending";
  }

  /** A well-formed request whose lines all resolve to available items with
      non-negative prices is saved, unless a dine-in table number below 1 reaches
      the schema (the route does not validate it) and the save fails with a 500. */
  lemma CreateOrderSucceeds(catalog: Catalog, user: string, body: OrderBody, now: int, flag: bool)
    requires WellFormedOrder(body) && AllResolvable(MenuItemIds(body.items.value), catalog)
    requires forall i :: 0 <= i < |body.items.value| ==>
      catalog[body.items.value[i].menuItem].isAvailable && catalog[body.items.value[i].menuItem].price >= 0
    ensures var r := CreateOrderOutcome(catalog, user, body, now, flag);
      var tableRefused := ParseOrderType(body.orderType) == Some(DineIn) && body.tableNumber.Some? && body.tableNumber.value < 1;
      && (tableRefused ==> r == Err(HttpError(500, "Order validation failed")))
      && (!tableRefused ==> r.Ok?)
  {
    CreateOrderDecision(catalog, user, body, now, flag);
    var lines := body.items.value;
    assert Resolved(lines, catalog);
    var items := Snapshot(lines, catalog);
    ItemsTotalNonNegative(items);
  }

  // ---------------------------------------------------------------- getOrder

  /** `getOrder` with the owner comparing ids: 404 for an unknown id, 403 for a
      caller who is neither admin, staff nor the owner, the order otherwise. */
  function GetOrder(orders: map<string, Order>, id: string, caller: Principal): (r: Result<Order>)
    ensures r == Err(HttpError(404, OrderNotFoundMessage)) <==> id !in orders
    ensures r == Err(HttpError(403, AccessRefusedMessage)) <==> id in orders && !MayAccessOrder(caller, orders[id].user)
    ensures r.Ok? <==> id in orders && MayAccessOrder(caller, orders[id].user)
    ensures r.Ok? ==> r.value == orders[id]
  {
    if id !in orders then Err(HttpError(404, OrderNotFoundMessage))
    else if !MayAccessOrder(caller, orders[id].user) then Err(HttpError(403, AccessRefusedMessage))
    else Ok(orders[id])
  }

  /** What `populate('user', 'name email')` leaves in `order.user`. */
  datatype OwnerRef = PopulatedUser(id: string, name: string, email: string) | NullRef

  function Populate(users: map<string, UserModel.User>, owner: string): OwnerRef {
    if owner in users then PopulatedUser(owner, users[owner].name, users[owner].email) else NullRef
  }

  /** `toString()` of a populated user document is the inspected object, which
      opens with a brace. The text after the brace is an illustration, not
      Node's exact layout; only the leading brace is relied on. */
  function InspectString(ref: OwnerRef): (s: string)
    requires ref.PopulatedUser?
    ensures |s| > 0 && s[0] == '{'
  {
    "{ _id: " + ref.id + ", name: '" + ref.name + "', email: '" + ref.email + "' }"
  }

  const NullToStringMessage: string := "Cannot read properties of null (reading 'toString')"

  /** `getOrder` as written: after `populate`, `order.user.toString()` is the
      inspected user document (or throws when the owner no longer exists). */
  function GetOrderAsWritten(orders: map<string, Order>, users: map<string, UserModel.User>, id: string, caller: Principal): (r: Result<Order>)
    ensures r == Err(HttpError(404, OrderNotFoundMessage)) <==> id !in orders
    ensures id in orders && IsStaff(caller) ==> r == Ok(orders[id])
    ensures id in orders && !IsStaff(caller) && orders[id].user !in users ==> r.Err? && r.failure.Status() == UnhandledStatus
    ensures r.Ok? ==> id in orders && r.value == orders[id]
  {
    if id !in orders then Err(HttpError(404, OrderNotFoundMessage))
    else if IsStaff(caller) then Ok(orders[id])
    else
      match Populate(users, orders[id].user)
      case NullRef => Err(HttpError(UnhandledStatus, NullToStringMessage))
      case ref => if InspectString(ref) != caller.id then Err(HttpError(403, AccessRefusedMessage)) else Ok(orders[id])
  }

  /** As written, a customer never reads their own order through `getOrder`:
      an ObjectId string never opens with a brace, so the comparison fails and
      the owner gets 403 (500 when the user document is gone). The corrected
      `GetOrder` lets the owner through. */
  lemma PopulatedOwnerRefused(orders: map<string, Order>, users: map<string, UserModel.User>, id: string, caller: Principal)
    requires id in orders && orders[id].user == caller.id && !IsStaff(caller)
    requires |caller.id| > 0 && caller.id[0] != '{'
    ensures caller.id in users ==> GetOrderAsWritten(orders, users, id, caller) == Err(HttpError(403, AccessRefusedMessage))
    ensures caller.id !in users ==> GetOrderAsWritten(orders, users, id, caller).Err?
    ensures GetOrder(orders, id, caller) == Ok(orders[id])
  {
    if caller.id in users {
      var s := InspectString(Populate(users, orders[id].user));
      assert s[0] != caller.id[0];
    }
  }

  // ---------------------------------------------------------------- getMyOrders

  /** `Order.find({ user: req.user.id })` */
  function MyOrders(orders: map<string, Order>, caller: Principal): (ids: set<string>)
    ensures forall id :: id in ids <==> id in orders && orders[id].user == caller.id
  {
    set id | id in orders && orders[id].user == caller.id
  }

  /** Every order in one's own list passes the owner check of `GetOrder`. */
  lemma MyOrdersReadable(orders: map<string, Order>, caller: Principal)
    ensures forall id :: id in MyOrders(orders, caller) ==> GetOrder(orders, id, caller) == Ok(orders[id])
  {
  }

  // ---------------------------------------------------------------- updateOrder

  /** A `findByIdAndUpdate` body: any subset of the document's fields. Values
      are taken as already cast to the schema's types. */
  datatype OrderPatch = OrderPatch(
    user: Option<string>,
    items: Option<seq<OrderItem>>,
    tableNumber: Option<int>,
    totalAmount: Option<int>,
    status: Option<Status>,
    paymentMethod: Option<PaymentMethod>,
    paymentStatus: Option<PaymentStatus>,
    orderType: Option<OrderType>,
    deliveryAddress: Option<Address>,
    deliveredAt: Option<int>,
    specialInstructions: Option<string>,
    orderHistory: Option<seq<HistoryEntry>>)

  /** `$set` of every field in the patch; no hook runs. */
  function ApplyPatch(o: Order, p: OrderPatch): Order {
    Order(
      user := Pick(p.user, o.user),
      items := Pick(p.items, o.items),
      tableNumber := PickOption(p.tableNumber, o.tableNumber),
      totalAmount := Pick(p.totalAmount, o.totalAmount),
      status := Pick(p.status, o.status),
      paymentMethod := Pick(p.paymentMethod, o.paymentMethod),
      paymentStatus := Pick(p.paymentStatus, o.paymentStatus),
      orderType := Pick(p.orderType, o.orderType),
      deliveryAddress := PickOption(p.deliveryAddress, o.deliveryAddress),
      deliveredAt := PickOption(p.deliveredAt, o.deliveredAt),
      specialInstructions := PickOption(p.specialInstructions, o.specialInstructions),
      orderHistory := Pick(p.orderHistory, o.orderHistory))
  }

  /** `runValidators: true`: the schema's validators on the paths being set. */
  predicate PatchValid(p: OrderPatch) {
    && (p.items.Some? ==> forall i :: 0 <= i < |p.items.value| ==> p.items.value[i].quantity >= MinQuantity)
    && (p.tableNumber.Some? ==> p.tableNumber.value >= MinTableNumber)
    && (p.totalAmount.Some? ==> p.totalAmount.value >= MinTotalAmount)
  }

  /** `updateOrder` */
  function UpdateOrderOutcome(orders: map<string, Order>, id: string, caller: Principal, patch: OrderPatch): Result<Order> {
    if id !in orders then Err(HttpError(404, OrderNotFoundMessage))
    else if !MayAccessOrder(caller, orders[id].user) then Err(HttpError(403, UpdateRefusedMessage))
    else if orders[id].status != Pending then Err(HttpError(400, NotPendingMessage))
    else if !PatchValid(patch) then Err(HttpError(UnhandledStatus, ValidationMessage))
    else Ok(ApplyPatch(orders[id], patch))
  }

  method UpdateOrder(db: Store.Database, id: string, caller: Principal, patch: OrderPatch) returns (r: Result<Order>)
    modifies db
    ensures r == UpdateOrderOutcome(old(db.orders), id, caller, patch)
    ensures db.orders == if r.Ok? then old(db.orders)[id := r.value] else old(db.orders)
    ensures db.menuItems == old(db.menuItems) && db.users == old(db.users)
  {
    if id !in db.orders {
      return Err(HttpError(404, OrderNotFoundMessage));
    }
    var order := db.orders[id];
    if !MayAccessOrder(caller, order.user) {
      return Err(HttpError(403, UpdateRefusedMessage));
    }
    if order.status != Pending {
      return Err(HttpError(400, NotPendingMessage));
    }
    if !PatchValid(patch) {
      return Err(HttpError(UnhandledStatus, ValidationMessage));
    }
    order := ApplyPatch(order, patch);
    db.orders := db.orders[id := order];
    r := Ok(order);
  }

  /** The checks of `updateOrder` in their order: 404, then 403 for a caller
      who is not owner, staff or admin, then 400 for a non-pending order; only
      then is the patch applied. */
  lemma UpdateOrderDecision(orders: map<string, Order>, id: string, caller: Principal, patch: OrderPatch)
    ensures var r := UpdateOrderOutcome(orders, id, caller, patch);
      && (id !in orders ==> r == Err(HttpError(404, OrderNotFoundMessage)))
      && (id in orders && !MayAccessOrder(caller, orders[id].user) ==> r == Err(HttpError(403, UpdateRefusedMessage)))
      && (id in orders && MayAccessOrder(caller, orders[id].user) && orders[id].status != Pending ==>
            r == Err(HttpError(400, NotPendingMessage)))
      && (r.Ok? <==> id in orders && MayAccessOrder(caller, orders[id].user) && orders[id].status == Pending && PatchValid(patch))
  {
  }

  /** No save hook runs on this path: the history is exactly the stored one
      unless the patch replaces it, and the total is exactly the stored one
      unless the patch sets it, whatever the patch does to the items. */
  lemma UpdateOrderRunsNoHooks(orders: map<string, Order>, id: string, caller: Principal, patch: OrderPatch)
    requires UpdateOrderOutcome(orders, id, caller, patch).Ok?
    ensures var o := UpdateOrderOutcome(orders, id, caller, patch).value;
      && o.orderHistory == (if patch.orderHistory.Some? then patch.orderHistory.value else orders[id].orderHistory)
      && o.totalAmount == (if patch.totalAmount.Some? then patch.totalAmount.value else orders[id].totalAmount)
      && o.status == (if patch.status.Some? then patch.status.value else Pending)
  {
  }

  function ItemsOnly(items: seq<OrderItem>): OrderPatch {
    OrderPatch(None, Some(items), None, None, None, None, None, None, None, None, None, None)
  }

  /** Replacing the items of a pending order leaves the stored total behind:
      the result's total is no longer Σ price × quantity. */
  lemma UpdateOrderLeavesTotalStale(caller: Principal, o: Order, x: OrderItem)
    requires o.user == caller.id && o.status == Pending && o.items == [] && o.totalAmount == 0
    requires x.quantity >= 1 && x.price >= 1
    ensures var r := UpdateOrderOutcome(map["order" := o], "order", caller, ItemsOnly([x]));
      r.Ok? && r.value.totalAmount == 0 && ItemsTotal(r.value.items) == x.price * x.quantity > 0
  {
  }

  // ---------------------------------------------------------------- deleteOrder

  method DeleteOrder(db: Store.Database, id: string) returns (r: Result<()>)
    modifies db
    ensures r.Err? <==> id !in old(db.orders)
    ensures r.Err? ==> r == Err(HttpError(404, OrderNotFoundMessage)) && db.orders == old(db.orders)
    ensures r.Ok? ==> db.orders == old(db.orders) - {id}
    ensures db.menuItems == old(db.menuItems) && db.users == old(db.users)
  {
    if id !in db.orders {
      return Err(HttpError(404, OrderNotFoundMessage));
    }
    db.orders := db.orders - {id};
    r := Ok(());
  }

  // ---------------------------------------------------------------- updateOrderStatus

  /** Assigning the status (and stamping `deliveredAt` for "delivered") on a
      loaded document, then saving it. */
  function WithStatus(o: Order, s: Status, now: int): Result<Order> {
    Saved(o.(status := s, deliveredAt := if s == Delivered then Some(now) else o.deliveredAt), s != o.status, now)
  }

  /** `updateOrderStatus` */
  function UpdateOrderStatusOutcome(orders: map<string, Order>, id: string, status: Option<string>, now: int): Result<Order> {
    if !Truthy(status) || ParseStatus(status.value).None? then Err(HttpError(400, InvalidStatusMessage))
    else if id !in orders then Err(HttpError(404, OrderNotFoundMessage))
    else WithStatus(orders[id], ParseStatus(status.value).value, now)
  }

  method UpdateOrderStatus(db: Store.Database, id: string, status: Option<string>, now: int) returns (r: Result<Order>)
    modifies db
    ensures r == UpdateOrderStatusOutcome(old(db.orders), id, status, now)
    ensures db.orders == if r.Ok? then old(db.orders)[id := r.value] else old(db.orders)
    ensures db.menuItems == old(db.menuItems) && db.users == old(db.users)
  {
    if !Truthy(status) || ParseStatus(status.value).None? {
      return Err(HttpError(400, InvalidStatusMessage));
    }
    var s := ParseStatus(status.value).value;
    if id !in db.orders {
      return Err(HttpError(404, OrderNotFoundMessage));
    }
    var order := new OrderDocument.Hydrate(db.orders[id]);
    order.SetStatus(s);
    if s == Delivered {
      order.SetDeliveredAt(now);
    }
    r := order.Save(now);
    if r.Ok? {
      db.orders := db.orders[id := r.value];
    }
  }

  /** A missing or non-enum status is refused before the order is looked up. */
  lemma StatusCheckedBeforeLookup(orders: map<string, Order>, id: string, status: Option<string>, now: int)
    ensures var r := UpdateOrderStatusOutcome(orders, id, status, now);
      && (r == Err(HttpError(400, InvalidStatusMessage)) <==> !Truthy(status) || ParseStatus(status.value).None?)
      && (r == Err(HttpError(404, OrderNotFoundMessage)) <==> Truthy(status) && ParseStatus(status.value).Some? && id !in orders)
  {
  }

  /** On a stored order that passes validation, a status change always saves:
      the status is set, `deliveredAt` is stamped exactly for "delivered", one
      history entry is appended exactly when the status differs, earlier
      entries are kept, and the total is recomputed from non-empty items. */
  lemma StatusChangeEffect(o: Order, s: Status, now: int)
    requires ValidOrder(o)
    ensures WithStatus(o, s, now).Ok?
    ensures var n := WithStatus(o, s, now).value;
      && n.status == s
      && n.deliveredAt == (if s == Delivered then Some(now) else o.deliveredAt)
      && n.orderHistory == o.orderHistory
           + (if s != o.status then [HistoryEntry(s, now, "Order status changed to " + StatusName(s))] else [])
      && n.items == o.items
      && n.totalAmount == (if |o.items| > 0 then ItemsTotal(o.items) else o.totalAmount)
  {
  }

  datatype StatusUpdate = StatusUpdate(status: Status, time: int)

  /** A run of `updateOrderStatus` calls on one order, stopping at the first failure. */
  function ApplyStatusUpdates(o: Order, updates: seq<StatusUpdate>): Result<Order>
    decreases |updates|
  {
    if updates == [] then Ok(o)
    else
      match WithStatus(o, updates[0].status, updates[0].time)
      case Err(f) => Err(f)
      case Ok(next) => ApplyStatusUpdates(next, updates[1..])
  }

  /** How many of the updates actually change the status. */
  function ChangeCount(current: Status, updates: seq<StatusUpdate>): nat
    decreases |updates|
  {
    if updates == [] then 0
    else (if updates[0].status != current then 1 else 0) + ChangeCount(updates[0].status, updates[1..])
  }

  /** Through status changes the history only grows: every earlier entry is kept
      unchanged and exactly one entry is added per real change. */
  lemma {:induction false} HistoryOnlyGrows(o: Order, updates: seq<StatusUpdate>)
    requires ApplyStatusUpdates(o, updates).Ok?
    ensures var h := ApplyStatusUpdates(o, updates).value.orderHistory;
      && |h| == |o.orderHistory| + ChangeCount(o.status, updates)
      && h[..|o.orderHistory|] == o.orderHistory
    decreases |updates|
  {
    if updates != [] {
      var next := WithStatus(o, updates[0].status, updates[0].time).value;
      HistoryOnlyGrows(next, updates[1..]);
      assert next.status == updates[0].status;
      var h := ApplyStatusUpdates(o, updates).value.orderHistory;
      assert next.orderHistory[..|o.orderHistory|] == o.orderHistory;
      assert h[..|next.orderHistory|] == next.orderHistory;
      assert h[..|o.orderHistory|] == h[..|next.orderHistory|][..|o.orderHistory|];
    }
  }

  // ---------------------------------------------------------------- getOrders

  /** The filter object `getOrders` builds; each value is the raw query string. */
  datatype OrderQuery = OrderQuery(status: Option<string>, orderType: Option<string>, paymentStatus: Option<string>)

  const DefaultOrderSort: string := "-createdAt"

  /** Each filter field is set only when its query parameter is non-empty. */
  method BuildOrderQuery(status: Option<string>, orderType: Option<string>, paymentStatus: Option<string>) returns (q: OrderQuery)
    ensures q.status.Some? <==> Truthy(status)
    ensures q.orderType.Some? <==> Truthy(orderType)
    ensures q.paymentStatus.Some? <==> Truthy(paymentStatus)
    ensures q.status.Some? ==> q.status == status
    ensures q.orderType.Some? ==> q.orderType == orderType
    ensures q.paymentStatus.Some? ==> q.paymentStatus == paymentStatus
  {
    q := OrderQuery(None, None, None);
    if Truthy(status) {
      q := q.(status := status);
    }
    if Truthy(orderType) {
      q := q.(orderType := orderType);
    }
    if Truthy(paymentStatus) {
      q := q.(paymentStatus := paymentStatus);
    }
  }

  /** The documents `Order.find(query)` selects: equality on each given field. */
  predicate OrderMatches(o: Order, q: OrderQuery) {
    && (q.status.Some? ==> StatusName(o.status) == q.status.value)
    && (q.orderType.Some? ==> OrderTypeName(o.orderType) == q.orderType.value)
    && (q.paymentStatus.Some? ==> PaymentStatusName(o.paymentStatus) == q.paymentStatus.value)
  }

  function MatchingOrders(orders: map<string, Order>, q: OrderQuery): set<string> {
    set id | id in orders && OrderMatches(orders[id], q)
  }

  /** No filter selects every order; a status filter selects exactly the orders
      with that status, and one that names no status (nothing validates it)
      selects none. */
  lemma OrderFilterSelection(orders: map<string, Order>, s: string)
    ensures MatchingOrders(orders, OrderQuery(None, None, None)) == orders.Keys
    ensures ParseStatus(s).Some? ==>
      MatchingOrders(orders, OrderQuery(Some(s), None, None)) == set id | id in orders && orders[id].status == ParseStatus(s).value
    ensures ParseStatus(s).None? ==> MatchingOrders(orders, OrderQuery(Some(s), None, None)) == {}
  {
    if ParseStatus(s).Some? {
      var t := ParseStatus(s).value;
      forall id | id in orders
        ensures OrderMatches(orders[id], OrderQuery(Some(s), None, None)) <==> orders[id].status == t
      {
        StatusNameInjective(orders[id].status, t);
      }
    }
  }

  lemma StatusNameInjective(a: Status, b: Status)
    ensures StatusName(a) == StatusName(b) <==> a == b
  {
    if a != b {
      assert ParseStatus(StatusName(a)) != ParseStatus(StatusName(b));
    }
  }

  /** `getOrders`. `sortEngine` stands for the database ordering the selected
      documents by a sort string. */
  method GetOrders(orders: map<string, Order>, status: Option<string>, orderType: Option<string>, paymentStatus: Option<string>,
                   sort: Option<string>, limit: Option<int>, page: Option<int>,
                   sortEngine: (set<string>, string) -> seq<string>)
    returns (query: OrderQuery, listing: Result<Listing.Page>)
    requires Listing.SortsInput(sortEngine)
    ensures query.status.Some? <==> Truthy(status)
    ensures query.orderType.Some? <==> Truthy(orderType)
    ensures query.paymentStatus.Some? <==> Truthy(paymentStatus)
    ensures query.status.Some? ==> query.status == status
    ensures query.orderType.Some? ==> query.orderType == orderType
    ensures query.paymentStatus.Some? ==> query.paymentStatus == paymentStatus
    ensures var selected := MatchingOrders(orders, query);
      listing == Listing.Respond(selected, sortEngine(selected, Listing.SortSpec(sort, DefaultOrderSort)), limit, page)
    ensures listing.Ok? ==> forall id :: id in listing.value.ids ==> id in MatchingOrders(orders, query)
    ensures listing.Ok? ==> listing.value.count <= listing.value.total == |MatchingOrders(orders, query)|
    ensures limit.None? && page.None? ==> listing.Ok? && listing.value.page == 1 && listing.value.limit == 10
  {
    query := BuildOrderQuery(status, orderType, paymentStatus);
    var selected := MatchingOrders(orders, query);
    var sorted := sortEngine(selected, Listing.SortSpec(sort, DefaultOrderSort));
    listing := Listing.Respond(selected, sorted, limit, page);
  }

  // ---------------------------------------------------------------- a worked scenario

  function ScenarioItem(name: string, price: int): MenuItemModel.MenuItem {
    MenuItemModel.MenuItem(name, "", price, "default-food.jpg", MenuItemModel.MainCourse, true, 15, [],
                           false, false, false, 0, [], 0.0)
  }

  const ScenarioCatalog: Catalog := map["A" := ScenarioItem("Alpha", 10), "B" := ScenarioItem("Beta", 5)]
  const ScenarioLines: seq<LineRequest> := [LineRequest("A", Some(2), None), LineRequest("B", Some(1), None)]
  const ScenarioBody: OrderBody := OrderBody(Some(ScenarioLines), "takeaway", None, None, None)

  /** The scenario's request is well formed, resolves, and snapshots to a total of 25. */
  lemma ScenarioResolves()
    ensures WellFormedOrder(ScenarioBody) && AllResolvable(MenuItemIds(ScenarioLines), ScenarioCatalog)
    ensures Resolved(ScenarioLines, ScenarioCatalog) && FirstUnavailable(ScenarioLines, ScenarioCatalog, 0).None?
    ensures ItemsTotal(Snapshot(ScenarioLines, ScenarioCatalog)) == 25
  {
    OrderValidationAccepts(ScenarioBody);
    assert MenuItemIds(ScenarioLines) == ["A", "B"];
    var items := Snapshot(ScenarioLines, ScenarioCatalog);
    assert items == [OrderItem("A", "Alpha", 10, 2, ""), OrderItem("B", "Beta", 5, 1, "")];
    assert items[..1] == [OrderItem("A", "Alpha", 10, 2, "")];
    assert items[..1][..0] == [];
    assert ItemsTotal(items[..1]) == 20;
  }

  /** Two lines, A × 2 at 10 and B × 1 at 5, give a total of 25, a pending
      status and the one "Order created" entry; confirming adds a second entry
      and keeps the total, which comes from the order's own snapshot lines. */
  lemma Scenario()
    ensures var r := CreateOrderOutcome(ScenarioCatalog, "u1", ScenarioBody, 100, false);
      && r.Ok?
      && r.value.totalAmount == 25
      && r.value.status == Pending
      && r.value.orderHistory == [HistoryEntry(Pending, 100, "Order created")]
      && var c := WithStatus(r.value, Confirmed, 200);
      && c.Ok?
      && |c.value.orderHistory| == 2 && c.value.orderHistory[1].status == Confirmed
      && c.value.totalAmount == 25
  {
    ScenarioResolves();
    var items := Snapshot(ScenarioLines, ScenarioCatalog);
    CreateOrderSucceeds(ScenarioCatalog, "u1", ScenarioBody, 100, false);
    CreateOrderTotal(ScenarioCatalog, "u1", ScenarioBody, 100, false);
    CreateOrderInitialState(ScenarioCatalog, "u1", ScenarioBody, 100, false);
    CreateOrderSnapshots(ScenarioCatalog, "u1", ScenarioBody, 100, false);
    var o := CreateOrderOutcome(ScenarioCatalog, "u1", ScenarioBody, 100, false).value;
    assert o.items == items;
    StatusChangeEffect(o, Confirmed, 200);
  }
}

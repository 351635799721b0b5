/** The order document: its enumerations, field validators, and the two
    `pre('save')` hooks that keep the status history and the total. */
module OrderModel {
  import opened Http

  /** One status type serves the order's `status` and every history entry's
      `status`, so the two seven-value enums cannot drift apart. */
  datatype Status = Pending | Confirmed | Preparing | Ready | Delivered | Completed | Cancelled

  function StatusName(s: Status): string {
    match s
    case Pending => "pending"
    case Confirmed => "confirmed"
    case Preparing => "preparing"
    case Ready => "ready"
    case Delivered => "delivered"
    case Completed => "completed"
    case Cancelled => "cancelled"
  }

  /** The enum check on a status string. */
  function ParseStatus(t: string): (r: Option<Status>)
    ensures r.Some? ==> StatusName(r.value) == t
    ensures r.None? ==> forall s: Status :: StatusName(s) != t
  {
    if t == "pending" then Some(Pending)
    else if t == "confirmed" then Some(Confirmed)
    else if t == "preparing" then Some(Preparing)
    else if t == "ready" then Some(Ready)
    else if t == "delivered" then Some(Delivered)
    else if t == "completed" then Some(Completed)
    else if t == "cancelled" then Some(Cancelled)
    else None
  }

  datatype OrderType = DineIn | Takeaway | Delivery

  function OrderTypeName(t: OrderType): string {
    match t
    case DineIn => "dine-in"
    case Takeaway => "takeaway"
    case Delivery => "delivery"
  }

  function ParseOrderType(t: string): (r: Option<OrderType>)
    ensures r.Some? ==> OrderTypeName(r.value) == t
    ensures r.None? ==> forall k: OrderType :: OrderTypeName(k) != t
  {
    if t == "dine-in" then Some(DineIn)
    else if t == "takeaway" then Some(Takeaway)
    else if t == "delivery" then Some(Delivery)
    else None
  }

  datatype PaymentMethod = Cash | Card | MobilePayment | NotPaid

  datatype PaymentStatus = PaymentPending | PaymentCompleted | PaymentFailed | PaymentRefunded

  function PaymentStatusName(p: PaymentStatus): string {
    match p
    case PaymentPending => "pending"
    case PaymentCompleted => "completed"
    case PaymentFailed => "failed"
    case PaymentRefunded => "refunded"
  }

  const DefaultStatus: Status := Pending
  const DefaultPaymentMethod: PaymentMethod := NotPaid
  const DefaultPaymentStatus: PaymentStatus := PaymentPending

  /** Prices and amounts are integers (cents). */
  datatype OrderItem = OrderItem(menuItem: string, name: string, price: int, quantity: int, specialInstructions: string)

  datatype HistoryEntry = HistoryEntry(status: Status, timestamp: int, note: string)

  datatype Address = Address(street: string, city: string, state: string, zipCode: string, country: string)

  datatype Order = Order(
    user: string,
    items: seq<OrderItem>,
    tableNumber: Option<int>,
    totalAmount: int,
    status: Status,
    paymentMethod: PaymentMethod,
    paymentStatus: PaymentStatus,
    orderType: OrderType,
    deliveryAddress: Option<Address>,
    deliveredAt: Option<int>,
    specialInstructions: Option<string>,
    orderHistory: seq<HistoryEntry>)

  const MinQuantity: int := 1
  const MinTableNumber: int := 1
  const MinTotalAmount: int := 0

  /** The schema's numeric validators; the enumerations hold by construction. */
  predicate ValidOrder(o: Order) {
    && (forall i :: 0 <= i < |o.items| ==> o.items[i].quantity >= MinQuantity)
    && (o.tableNumber.Some? ==> o.tableNumber.value >= MinTableNumber)
    && o.totalAmount >= MinTotalAmount
  }

  /** `items.reduce((total, item) => total + item.price * item.quantity, 0)` */
  function ItemsTotal(items: seq<OrderItem>): int {
    if items == [] then 0
    else ItemsTotal(items[..|items| - 1]) + items[|items| - 1].price * items[|items| - 1].quantity
  }

  lemma {:induction false} ItemsTotalNonNegative(items: seq<OrderItem>)
    requires forall i :: 0 <= i < |items| ==> items[i].price >= 0 && items[i].quantity >= 1
    ensures ItemsTotal(items) >= 0
  {
    if items != [] {
      var last := items[|items| - 1];
      ItemsTotalNonNegative(items[..|items| - 1]);
      assert last.price * last.quantity >= 0;
    }
  }

  /** Appending a line adds exactly its price times its quantity. */
  lemma ItemsTotalAppend(items: seq<OrderItem>, x: OrderItem)
    ensures ItemsTotal(items + [x]) == ItemsTotal(items) + x.price * x.quantity
  {
    assert (items + [x])[..|items|] == items;
  }

  const CreatedNote: string := "Order created"

  function StatusNote(s: Status): string {
    "Order status changed to " + StatusName(s)
  }

  /** The first hook: one history entry for the current status when `status`
      was modified, none otherwise. */
  function RecordStatusChange(o: Order, statusModified: bool, now: int): Order {
    if statusModified then
      o.(orderHistory := o.orderHistory + [HistoryEntry(o.status, now, StatusNote(o.status))])
    else o
  }

  /** The second hook: the total is recomputed only when there are items. */
  function RecomputeTotal(o: Order): Order {
    if |o.items| > 0 then o.(totalAmount := ItemsTotal(o.items)) else o
  }

  const ValidationMessage: string := "Order validation failed"

  /** `save()`: Mongoose validates first, then runs the hooks in the order
      they were registered. */
  function Saved(o: Order, statusModified: bool, now: int): Result<Order> {
    if !ValidOrder(o) then Err(HttpError(UnhandledStatus, ValidationMessage))
    else Ok(RecomputeTotal(RecordStatusChange(o, statusModified, now)))
  }

  /** A save is refused, with a 500, exactly when a line has a quantity below 1,
      the table number is below 1 or the total is negative. */
  lemma SaveEnforcesBounds(o: Order, statusModified: bool, now: int)
    ensures Saved(o, statusModified, now).Ok? <==>
      && (forall i :: 0 <= i < |o.items| ==> o.items[i].quantity >= 1)
      && (o.tableNumber.Some? ==> o.tableNumber.value >= 1)
      && o.totalAmount >= 0
    ensures Saved(o, statusModified, now).Err? ==>
      Saved(o, statusModified, now) == Err(HttpError(500, "Order validation failed"))
  {
  }

  /** What a save does to the history: it fails exactly when the validators
      reject; otherwise it keeps every earlier entry and appends exactly one
      entry, naming the new status, when `status` was modified, and none otherwise. */
  lemma SaveHistory(o: Order, statusModified: bool, now: int)
    ensures Saved(o, statusModified, now).Ok? <==> ValidOrder(o)
    ensures Saved(o, statusModified, now).Ok? ==>
      var h := Saved(o, statusModified, now).value.orderHistory;
      && |h| == |o.orderHistory| + (if statusModified then 1 else 0)
      && h[..|o.orderHistory|] == o.orderHistory
      && (statusModified ==> h[|h| - 1] == HistoryEntry(o.status, now, "Order status changed to " + StatusName(o.status)))
  {
  }

  /** What a save does to the total: Σ price × quantity when there are items,
      the stored value when there are none; every other field is kept. */
  lemma SaveTotal(o: Order, statusModified: bool, now: int)
    requires Saved(o, statusModified, now).Ok?
    ensures var s := Saved(o, statusModified, now).value;
      && (|o.items| > 0 ==> s.totalAmount == ItemsTotal(o.items))
      && (|o.items| == 0 ==> s.totalAmount == o.totalAmount)
      && s.(totalAmount := o.totalAmount, orderHistory := o.orderHistory) == o
  {
  }

  /** A total that is Σ price × quantity stays so through a save. */
  lemma SaveKeepsConsistentTotal(o: Order, statusModified: bool, now: int)
    requires o.totalAmount == ItemsTotal(o.items)
    requires Saved(o, statusModified, now).Ok?
    ensures Saved(o, statusModified, now).value.totalAmount == ItemsTotal(o.items)
  {
  }

  /** A Mongoose order document in memory: the field values and whether
      `status` has been assigned a different value since loading. */
  class OrderDocument {
    var data: Order
    var statusModified: bool

    /** A document loaded from the collection. */
    constructor Hydrate(o: Order)
      ensures data == o && !statusModified
    {
      data := o;
      statusModified := false;
    }

    /** A new document handed to `Order.create`; whether the defaulted
        `status` path counts as modified is the ORM's choice, given here. */
    constructor Build(o: Order, defaultStatusModified: bool)
      ensures data == o && statusModified == defaultStatusModified
    {
      data := o;
      statusModified := defaultStatusModified;
    }

    /** `doc.status = s`: assigning the current value does not mark the path. */
    method SetStatus(s: Status)
      modifies this
      ensures data == old(data).(status := s)
      ensures statusModified == (old(statusModified) || s != old(data).status)
    {
      if s != data.status {
        statusModified := true;
      }
      data := data.(status := s);
    }

    method SetDeliveredAt(t: int)
      modifies this
      ensures data == old(data).(deliveredAt := Some(t))
      ensures statusModified == old(statusModified)
    {
      data := data.(deliveredAt := Some(t));
    }

    /** The history hook, pushing onto `orderHistory` in place. */
    method AppendStatusHistory(now: int)
      modifies this
      ensures data == RecordStatusChange(old(data), old(statusModified), now)
      ensures statusModified == old(statusModified)
    {
      if statusModified {
        data := data.(orderHistory := data.orderHistory + [HistoryEntry(data.status, now, StatusNote(data.status))]);
      }
    }

    /** The total hook, assigning `totalAmount` in place. */
    method RecalculateTotal()
      modifies this
      ensures data == RecomputeTotal(old(data))
      ensures statusModified == old(statusModified)
    {
      if |data.items| > 0 {
        data := data.(totalAmount := ItemsTotal(data.items));
      }
    }

    method Save(now: int) returns (r: Result<Order>)
      modifies this
      ensures r == Saved(old(data), old(statusModified), now)
      ensures r.Ok? ==> data == r.value && !statusModified
      ensures r.Err? ==> data == old(data) && statusModified == old(statusModified)
    {
      if !ValidOrder(data) {
        return Err(HttpError(UnhandledStatus, ValidationMessage));
      }
      AppendStatusHistory(now);
      RecalculateTotal();
      statusModified := false;
      r := Ok(data);
    }
  }
}

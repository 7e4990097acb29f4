/**
 * The persistent entities of the orders application: the two status
 * enumerations, orders, order items, the audit events, the inbound payloads
 * that the webhook receives, and the default listing order of orders and
 * events (newest first).
 */
module Models {
  import opened Wrappers

  /** A point on the server clock; only its order matters here. */
  type Timestamp = int

  /** Money in integer cents (the source stores two-decimal amounts). */
  type Cents = int

  // ---------------------------------------------------------------------------
  // Status enumerations
  // ---------------------------------------------------------------------------

  /** Customer-facing order status; it is never null and defaults to Created. */
  datatype OrderStatus = Created | Accepted | Preparing | Ready | Delivered | Cancelled

  /** Restaurant-side preparation status; the column itself may be null. */
  datatype PreparationStatus = Pending | Accepted | Rejected | Delayed | Cancelled | Done

  /** The stored text of an order status. */
  function OrderStatusValue(s: OrderStatus): string
  {
    match s
    case Created => "created"
    case Accepted => "accepted"
    case Preparing => "preparing"
    case Ready => "ready"
    case Delivered => "delivered"
    case Cancelled => "cancelled"
  }

  /** The stored text of a preparation status. */
  function PreparationStatusValue(s: PreparationStatus): string
  {
    match s
    case Pending => "pending"
    case Accepted => "accepted"
    case Rejected => "rejected"
    case Delayed => "delayed"
    case Cancelled => "cancelled"
    case Done => "done"
  }

  /** The six order statuses, in declaration order. */
  const OrderStatuses: seq<OrderStatus> :=
    [OrderStatus.Created, OrderStatus.Accepted, OrderStatus.Preparing,
     OrderStatus.Ready, OrderStatus.Delivered, OrderStatus.Cancelled]

  /** The six preparation statuses, in declaration order. */
  const PreparationStatuses: seq<PreparationStatus> :=
    [PreparationStatus.Pending, PreparationStatus.Accepted, PreparationStatus.Rejected,
     PreparationStatus.Delayed, PreparationStatus.Cancelled, PreparationStatus.Done]

  /** Every order status is one of exactly six choices, each stored under its own text. */
  lemma OrderStatusChoices(s: OrderStatus, t: OrderStatus)
    ensures s in OrderStatuses && |OrderStatuses| == 6
    ensures OrderStatusValue(s) == OrderStatusValue(t) ==> s == t
  {
  }

  /** Every preparation status is one of exactly six choices, each stored under its own text. */
  lemma PreparationStatusChoices(s: PreparationStatus, t: PreparationStatus)
    ensures s in PreparationStatuses && |PreparationStatuses| == 6
    ensures PreparationStatusValue(s) == PreparationStatusValue(t) ==> s == t
  {
  }

  // ---------------------------------------------------------------------------
  // Orders and items
  // ---------------------------------------------------------------------------

  /**
   * One row of the orders table. `prep` is the nullable preparation status;
   * the other Option fields are the nullable columns. `placedAt` is required.
   */
  datatype Order = Order(
    id: nat,
    restaurantId: int,
    customerId: int,
    status: OrderStatus,
    prep: Option<PreparationStatus>,
    rejectionReason: Option<string>,
    delayMinutes: Option<int>,
    totalAmount: Option<Cents>,
    placedAt: Timestamp,
    acceptedAt: Option<Timestamp>,
    deliveredAt: Option<Timestamp>,
    cancelledAt: Option<Timestamp>,
    createdAt: Timestamp,
    updatedAt: Timestamp)

  /** One row of the order items table. */
  datatype OrderItem = OrderItem(orderId: nat, menuItem: string, quantity: int, unitPrice: Cents)

  /** The quantity an item gets when none is given. */
  const DefaultQuantity: int := 1

  /** The derived line total of an item. */
  function TotalPrice(item: OrderItem): Cents
  {
    item.quantity * item.unitPrice
  }

  // ---------------------------------------------------------------------------
  // Inbound payloads (the JSON objects the webhook receives)
  // ---------------------------------------------------------------------------

  /** A key of a JSON object: absent, present with null, or present with a value. */
  datatype JsonField<+T> = Missing | Null | Value(v: T) {

    /** Python's `dict.get(key, default)`: the default only when the key is absent. */
    function GetOr(default: T): Option<T>
    {
      match this
      case Missing => Some(default)
      case Null => None
      case Value(x) => Some(x)
    }

    /** Python's `dict.get(key)`: null when the key is absent. */
    function Get(): Option<T>
    {
      if Value? then Some(v) else None
    }
  }

  /** One entry of the `items` list of an order_created payload; None is an absent key. */
  datatype ItemPayload = ItemPayload(menuItem: Option<string>, quantity: Option<int>, unitPrice: Option<Cents>)

  /**
   * The `data` object of an inbound event. order_created reads the first five
   * keys, order_cancelled the last two; an absent `items` key is the empty list.
   */
  datatype Payload = Payload(
    restaurantId: JsonField<int>,
    customerId: JsonField<int>,
    placedAt: JsonField<Timestamp>,
    totalAmount: JsonField<Cents>,
    items: seq<ItemPayload>,
    orderId: JsonField<int>,
    reason: JsonField<string>)

  /** The payload `{}`. */
  const EmptyPayload: Payload := Payload(Missing, Missing, Missing, Missing, [], Missing, Missing)

  // ---------------------------------------------------------------------------
  // Audit events
  // ---------------------------------------------------------------------------

  /**
   * The `event_data` of each kind of event that the application writes; the
   * kind determines the `event_type` tag.
   */
  datatype EventData =
    | OrderCreated(payload: Payload)
    | PreparationAccepted(acceptedAt: Timestamp)
    | PreparationRejected(reason: string, rejectedAt: Timestamp)
    | PreparationDelayed(minutes: int, delayReason: Option<string>, delayedAt: Timestamp)
    | PreparationCancelled(cancelReason: string, cancelledAt: Timestamp)
    | PreparationDone(completedAt: Timestamp)
    | OrderDelivered(deliveredAt: Timestamp)
    | OrderCancelled(cancelPayload: Payload)

  /** One row of the order events table: written once, never changed. */
  datatype OrderEvent = OrderEvent(orderId: nat, data: EventData, createdAt: Timestamp)

  /** The `event_type` tag stored with each kind of event. */
  function EventType(d: EventData): string
  {
    match d
    case OrderCreated(_) => "order_created"
    case PreparationAccepted(_) => "preparation_accepted"
    case PreparationRejected(_, _) => "preparation_rejected"
    case PreparationDelayed(_, _, _) => "preparation_delayed"
    case PreparationCancelled(_, _) => "preparation_cancelled"
    case PreparationDone(_) => "preparation_done"
    case OrderDelivered(_) => "order_delivered"
    case OrderCancelled(_) => "order_cancelled"
  }

  /** Distinct kinds of event are told apart by their tag alone. */
  lemma EventTypeIdentifiesKind(d: EventData, d': EventData)
    ensures EventType(d) == EventType(d') <==>
      (&& d.OrderCreated? == d'.OrderCreated?
       && d.PreparationAccepted? == d'.PreparationAccepted?
       && d.PreparationRejected? == d'.PreparationRejected?
       && d.PreparationDelayed? == d'.PreparationDelayed?
       && d.PreparationCancelled? == d'.PreparationCancelled?
       && d.PreparationDone? == d'.PreparationDone?
       && d.OrderDelivered? == d'.OrderDelivered?
       && d.OrderCancelled? == d'.OrderCancelled?)
  {
  }

  /** The tags the read-side filters and the history lemmas look for, each naming one kind. */
  lemma EventTypeTags(d: EventData)
    ensures EventType(d) == "preparation_done" <==> d.PreparationDone?
    ensures EventType(d) == "order_cancelled" <==> d.OrderCancelled?
    ensures EventType(d) == "preparation_cancelled" <==> d.PreparationCancelled?
    ensures EventType(d) == "preparation_rejected" <==> d.PreparationRejected?
    ensures EventType(d) == "preparation_accepted" <==> d.PreparationAccepted?
    ensures EventType(d) == "order_delivered" <==> d.OrderDelivered?
  {
  }

  // ---------------------------------------------------------------------------
  // Default listing order: orders by -placed_at, events by -created_at
  // ---------------------------------------------------------------------------

  function PlacedAt(o: Order): int { o.placedAt }

  function EventCreatedAt(e: OrderEvent): int { e.createdAt }

  /** The sequence is newest first under `key`. */
  predicate Descending<T>(s: seq<T>, key: T -> int)
  {
    forall i, j :: 0 <= i < j < |s| ==> key(s[i]) >= key(s[j])
  }

  /** Puts `x` into a newest-first sequence, before the first element not newer than it. */
  function InsertDescending<T(==)>(x: T, s: seq<T>, key: T -> int): (r: seq<T>)
    requires Descending(s, key)
    ensures multiset(r) == multiset(s) + multiset{x}
    ensures forall j :: 0 <= j < |r| ==> r[j] == x || r[j] in s
    ensures Descending(r, key)
  {
    if s == [] || key(x) >= key(s[0]) then
      assert Descending([x] + s, key) by { InsertInFront(x, s, key); }
      [x] + s
    else
      var rest := InsertDescending(x, s[1..], key);
      assert Descending([s[0]] + rest, key) by { InsertBehind(x, s, rest, key); }
      assert s == [s[0]] + s[1..];
      [s[0]] + rest
  }

  lemma InsertInFront<T>(x: T, s: seq<T>, key: T -> int)
    requires Descending(s, key)
    requires s == [] || key(x) >= key(s[0])
    ensures Descending([x] + s, key)
  {
    forall j | 0 <= j < |s|
      ensures key(x) >= key(s[j])
    {
      if j > 0 {
        assert key(s[0]) >= key(s[j]);
      }
    }
    PrependDescending(x, s, key);
  }

  lemma InsertBehind<T>(x: T, s: seq<T>, rest: seq<T>, key: T -> int)
    requires Descending(s, key) && s != [] && key(x) < key(s[0])
    requires Descending(rest, key)
    requires forall j :: 0 <= j < |rest| ==> rest[j] == x || rest[j] in s[1..]
    ensures Descending([s[0]] + rest, key)
  {
    forall j | 0 <= j < |rest|
      ensures key(s[0]) >= key(rest[j])
    {
      if rest[j] != x {
        var i :| 0 <= i < |s[1..]| && s[1..][i] == rest[j];
        assert s[i + 1] == rest[j];
      }
    }
    PrependDescending(s[0], rest, key);
  }

  lemma PrependDescending<T>(h: T, s: seq<T>, key: T -> int)
    requires Descending(s, key)
    requires forall j :: 0 <= j < |s| ==> key(h) >= key(s[j])
    ensures Descending([h] + s, key)
  {
  }

  /** The elements of `s` rearranged newest first under `key` (an insertion sort). */
  function SortDescending<T(==)>(s: seq<T>, key: T -> int): (r: seq<T>)
    ensures multiset(r) == multiset(s)
    ensures Descending(r, key)
  {
    if s == [] then []
    else
      assert s == [s[0]] + s[1..];
      InsertDescending(s[0], SortDescending(s[1..], key), key)
  }

  /** The default listing order of orders: newest placed_at first. */
  function OrdersNewestFirst(orders: seq<Order>): (r: seq<Order>)
    ensures multiset(r) == multiset(orders)
    ensures Descending(r, PlacedAt)
  {
    SortDescending(orders, PlacedAt)
  }

  /** The default listing order of events: newest created_at first. */
  function EventsNewestFirst(events: seq<OrderEvent>): (r: seq<OrderEvent>)
    ensures multiset(r) == multiset(events)
    ensures Descending(r, EventCreatedAt)
  {
    SortDescending(events, EventCreatedAt)
  }

  /** A log written with strictly increasing timestamps is listed in exactly the reverse order. */
  lemma {:induction false} NewestFirstOfChronologicalLog(events: seq<OrderEvent>)
    requires forall i, j :: 0 <= i < j < |events| ==> events[i].createdAt < events[j].createdAt
    ensures EventsNewestFirst(events) == Reversed(events)
  {
    SortOfAscendingIsReversed(events, EventCreatedAt);
  }

  function Reversed<T>(s: seq<T>): (r: seq<T>)
    ensures |r| == |s|
    ensures forall i :: 0 <= i < |s| ==> r[i] == s[|s| - 1 - i]
  {
    if s == [] then [] else Reversed(s[1..]) + [s[0]]
  }

  lemma {:induction false} SortOfAscendingIsReversed<T>(s: seq<T>, key: T -> int)
    requires forall i, j :: 0 <= i < j < |s| ==> key(s[i]) < key(s[j])
    ensures SortDescending(s, key) == Reversed(s)
  {
    if s != [] {
      SortOfAscendingIsReversed(s[1..], key);
      var rest := Reversed(s[1..]);
      assert forall j :: 0 <= j < |rest| ==> key(s[0]) < key(rest[j]);
      InsertBelowAll(s[0], rest, key);
    }
  }

  lemma {:induction false} InsertBelowAll<T>(x: T, s: seq<T>, key: T -> int)
    requires Descending(s, key)
    requires forall j :: 0 <= j < |s| ==> key(x) < key(s[j])
    ensures InsertDescending(x, s, key) == s + [x]
  {
    if s != [] {
      InsertBelowAll(x, s[1..], key);
      assert s == [s[0]] + s[1..];
    }
  }
}

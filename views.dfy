/**
 * The state-changing side of the order views: the six staff actions on one
 * order, the two inbound event handlers and the webhook dispatch. The tables
 * live in a `Store`; each action reads one row, checks its guard, assigns
 * fields one by one, saves, writes one audit event and then, for the staff
 * actions other than delivery, calls the dispatch service client, whose calls
 * are recorded in a ghost trace.
 */
module Views {
  import opened Wrappers
  import opened Models
  import opened Numerals
  import opened Lifecycle

  /** The error responses: 400 with its message, 404 for an unknown order, 500 for an uncaught exception. */
  datatype ApiError = BadRequest(message: string) | NotFound | ServerError

  /** A `delay_minutes` value as a request body can carry it. */
  datatype DelayInput = Integer(n: int) | Text(s: string) | Boolean(b: bool)

  /** Python's truth test on a present `delay_minutes` value. */
  predicate Truthy(v: DelayInput)
  {
    match v
    case Integer(n) => n != 0
    case Text(s) => s != ""
    case Boolean(b) => b
  }

  /**
   * The delay `mark_delayed` accepts: an absent, null or falsy value is
   * missing; otherwise `int()` must convert it to a positive number.
   */
  function RequestedDelay(v: Option<DelayInput>): (r: Result<int, string>)
    ensures r.Success? ==> r.value > 0
    ensures v.None? || !Truthy(v.value) ==> r == Failure("Delay minutes is required")
    ensures v.Some? && Truthy(v.value) && r.Failure? ==> r.error == "Invalid delay minutes value"
    ensures v.Some? && v.value.Integer? && v.value.n != 0 ==>
      r == if v.value.n > 0 then Success(v.value.n) else Failure("Invalid delay minutes value")
    ensures v == Some(Boolean(true)) ==> r == Success(1)
  {
    if v.None? || !Truthy(v.value) then Failure("Delay minutes is required")
    else
      var n := match v.value
        case Integer(n) => Some(n)
        case Text(s) => ParseInt(s)
        case Boolean(b) => Some(if b then 1 else 0);
      if n.None? || n.value <= 0 then Failure("Invalid delay minutes value")
      else Success(n.value)
  }

  /**
   * A delay sent as text is read as the number it spells: "15" is 15, while
   * "0" and "-5" are present but invalid.
   */
  lemma TextDelayRoundTrip(n: int)
    ensures RequestedDelay(Some(Text(FormatInt(n)))) ==
      if n > 0 then Success(n) else Failure("Invalid delay minutes value")
  {
    ParseFormatRoundTrip(n);
    TextDelay(FormatInt(n));
  }

  /** A non-empty text delay is whatever `int()` makes of it, when positive. */
  lemma TextDelay(s: string)
    requires s != ""
    ensures RequestedDelay(Some(Text(s))) ==
      if ParseInt(s).Some? && ParseInt(s).value > 0 then Success(ParseInt(s).value)
      else Failure("Invalid delay minutes value")
  {
  }

  /** A staff reason passes `if not reason` only when present, non-null and non-empty. */
  predicate ReasonGiven(reason: JsonField<string>)
  {
    reason.Value? && reason.v != ""
  }

  /** A payload id that names a row of `ids` (null and absent name nothing). */
  predicate Names(f: JsonField<int>, ids: set<int>)
  {
    f.Value? && f.v in ids
  }

  /** The body of a webhook call: the `type` and `data` keys. */
  datatype WebhookRequest = WebhookRequest(eventType: JsonField<string>, data: JsonField<Payload>)

  /** A successful webhook reply: 201 for a created order, 200 for a cancelled one. */
  datatype WebhookReply = OrderCreatedReply(orderId: nat) | OrderCancelledReply(orderId: nat)

  /** `request.data.get('data', {})` where it is not null. */
  function PayloadOf(data: JsonField<Payload>): Payload
  {
    if data.Value? then data.v else EmptyPayload
  }

  /**
   * The error `handle_order_created_event` raises before writing anything, in
   * the order it checks: the three required keys, then both references, then
   * the null `placed_at` the insert refuses. None when the order is created.
   */
  function CreationRefusal(data: Payload, restaurants: set<int>, customers: set<int>): (r: Option<ApiError>)
    ensures r.None? <==>
      Names(data.restaurantId, restaurants) && Names(data.customerId, customers) && data.placedAt.Value?
    ensures r.Some? && r.value.BadRequest? ==>
      (|| data.placedAt.Missing?
       || !Names(data.restaurantId, restaurants)
       || !Names(data.customerId, customers))
  {
    if data.restaurantId.Missing? then Some(BadRequest("Missing field: restaurant_id"))
    else if data.customerId.Missing? then Some(BadRequest("Missing field: customer_id"))
    else if data.placedAt.Missing? then Some(BadRequest("Missing field: placed_at"))
    else if !Names(data.restaurantId, restaurants) || !Names(data.customerId, customers) then
      Some(BadRequest("Invalid restaurant_id or customer_id"))
    else if data.placedAt.Null? then Some(ServerError)
    else None
  }

  /**
   * The error `handle_order_cancelled_event` raises, given the number of
   * orders on file: a falsy `order_id`, then an unknown one. None when the
   * order is cancelled.
   */
  function CancellationRefusal(data: Payload, count: nat): (r: Option<ApiError>)
    ensures r.None? <==> data.orderId.Value? && 1 <= data.orderId.v <= count
    ensures r.Some? ==> r.value.BadRequest?
  {
    if !(data.orderId.Value? && data.orderId.v != 0) then Some(BadRequest("order_id is required"))
    else if !(1 <= data.orderId.v <= count) then Some(BadRequest("Order not found"))
    else None
  }

  class Store {
    /** Ids of the restaurants and customers on file. */
    var restaurants: set<int>
    var customers: set<int>
    /** The orders table; the order with id `i` is `orders[i - 1]`. */
    var orders: seq<Order>
    var items: seq<OrderItem>
    /** The audit events, oldest first. */
    var events: seq<OrderEvent>
    /** The calls made on the dispatch service client, oldest first. */
    ghost var notifications: seq<Notification>

    ghost predicate Valid()
      reads this
    {
      Consistent(orders, items, events) && notifications == NotificationsOf(events)
    }

    constructor (restaurants: set<int>, customers: set<int>)
      ensures Valid()
      ensures this.restaurants == restaurants && this.customers == customers
      ensures orders == [] && items == [] && events == [] && notifications == []
    {
      this.restaurants := restaurants;
      this.customers := customers;
      orders := [];
      items := [];
      events := [];
      notifications := [];
    }

    /**
     * `order.save()`, which also stamps `updated_at`, then the event write,
     * then the dispatch service call the transition makes, if any.
     */
    method SaveAndLog(k: nat, order: Order, e: OrderEvent)
      requires Valid()
      requires k < |orders| && e.orderId == k + 1 && Admissible(orders[k], e)
      requires order.(updatedAt := e.createdAt) == Evolve(orders[k], e)
      modifies this
      ensures Valid()
      ensures orders == old(orders)[k := Evolve(old(orders[k]), e)]
      ensures events == old(events) + [e]
      ensures notifications == old(notifications) + Outbound(e)
      ensures items == old(items) && restaurants == old(restaurants) && customers == old(customers)
    {
      ConsistentAfterTransition(orders, items, events, k, e);
      NotificationsOfAppend(events, e);
      orders := orders[k := order.(updatedAt := e.createdAt)];
      events := events + [e];
      notifications := notifications + Outbound(e);
    }

    /** `accept_preparation`: refused only when the preparation is already accepted. */
    method AcceptPreparation(pk: int, now: Timestamp) returns (r: Result<Order, ApiError>)
      requires Valid()
      modifies this
      ensures Valid()
      ensures items == old(items) && restaurants == old(restaurants) && customers == old(customers)
      ensures !(1 <= pk <= |old(orders)|) ==> r == Failure(NotFound) && unchanged(this)
      ensures 1 <= pk <= |old(orders)| && old(orders[pk - 1]).prep == Some(PreparationStatus.Accepted) ==>
        r == Failure(BadRequest("Order has already been accepted")) && unchanged(this)
      ensures 1 <= pk <= |old(orders)| && old(orders[pk - 1]).prep != Some(PreparationStatus.Accepted) ==>
        var e := OrderEvent(pk, PreparationAccepted(now), now);
        && orders == old(orders)[pk - 1 := Evolve(old(orders[pk - 1]), e)]
        && orders[pk - 1].prep == Some(PreparationStatus.Accepted)
        && orders[pk - 1].acceptedAt == Some(now)
        && orders[pk - 1].status == old(orders[pk - 1]).status
        && events == old(events) + [e]
        && notifications == old(notifications) + [NotifyPreparationAccepted(pk)]
        && r == Success(orders[pk - 1])
    {
      if !(1 <= pk <= |orders|) {
        return Failure(NotFound);
      }
      var k := pk - 1;
      var order := orders[k];
      if order.prep == Some(PreparationStatus.Accepted) {
        return Failure(BadRequest("Order has already been accepted"));
      }
      order := order.(prep := Some(PreparationStatus.Accepted));
      order := order.(acceptedAt := Some(now));
      SaveAndLog(k, order, OrderEvent(pk, PreparationAccepted(now), now));
      r := Success(orders[k]);
    }

    /** `reject_preparation`: needs a reason; cancels the order whatever its status. */
    method RejectPreparation(pk: int, reason: JsonField<string>, now: Timestamp) returns (r: Result<Order, ApiError>)
      requires Valid()
      modifies this
      ensures Valid()
      ensures items == old(items) && restaurants == old(restaurants) && customers == old(customers)
      ensures !(1 <= pk <= |old(orders)|) ==> r == Failure(NotFound) && unchanged(this)
      ensures 1 <= pk <= |old(orders)| && !ReasonGiven(reason) ==>
        r == Failure(BadRequest("Rejection reason is required")) && unchanged(this)
      ensures 1 <= pk <= |old(orders)| && ReasonGiven(reason) ==>
        var e := OrderEvent(pk, PreparationRejected(reason.v, now), now);
        && orders == old(orders)[pk - 1 := Evolve(old(orders[pk - 1]), e)]
        && orders[pk - 1].status == OrderStatus.Cancelled
        && orders[pk - 1].prep == Some(PreparationStatus.Rejected)
        && orders[pk - 1].rejectionReason == Some(reason.v)
        && orders[pk - 1].cancelledAt == Some(now)
        && events == old(events) + [e]
        && notifications == old(notifications) + [NotifyPreparationRejected(pk, reason.v)]
        && r == Success(orders[pk - 1])
    {
      if !(1 <= pk <= |orders|) {
        return Failure(NotFound);
      }
      var k := pk - 1;
      var order := orders[k];
      if !ReasonGiven(reason) {
        return Failure(BadRequest("Rejection reason is required"));
      }
      order := order.(prep := Some(PreparationStatus.Rejected));
      order := order.(rejectionReason := Some(reason.v));
      order := order.(status := OrderStatus.Cancelled);
      order := order.(cancelledAt := Some(now));
      SaveAndLog(k, order, OrderEvent(pk, PreparationRejected(reason.v, now), now));
      r := Success(orders[k]);
    }

    /**
     * `mark_delayed`: needs a positive whole delay; adds it to the delay so
     * far, logs only this call's delay, and forwards the reason when non-empty.
     */
    method MarkDelayed(pk: int, delay: Option<DelayInput>, reason: JsonField<string>, now: Timestamp)
      returns (r: Result<Order, ApiError>)
      requires Valid()
      modifies this
      ensures Valid()
      ensures items == old(items) && restaurants == old(restaurants) && customers == old(customers)
      ensures !(1 <= pk <= |old(orders)|) ==> r == Failure(NotFound) && unchanged(this)
      ensures 1 <= pk <= |old(orders)| && RequestedDelay(delay).Failure? ==>
        r == Failure(BadRequest(RequestedDelay(delay).error)) && unchanged(this)
      ensures 1 <= pk <= |old(orders)| && RequestedDelay(delay).Success? ==>
        var d := RequestedDelay(delay).value;
        var why := reason.GetOr("");
        var e := OrderEvent(pk, PreparationDelayed(d, why, now), now);
        && orders == old(orders)[pk - 1 := Evolve(old(orders[pk - 1]), e)]
        && orders[pk - 1].prep == Some(PreparationStatus.Delayed)
        && orders[pk - 1].delayMinutes == Some(AccumulatedDelay(old(orders[pk - 1]).delayMinutes, d))
        && orders[pk - 1].status == old(orders[pk - 1]).status
        && events == old(events) + [e]
        && notifications == old(notifications) +
             [NotifyPreparationDelayed(pk, d, if why.Some? && why.value != "" then why else None)]
        && r == Success(orders[pk - 1])
    {
      if !(1 <= pk <= |orders|) {
        return Failure(NotFound);
      }
      var k := pk - 1;
      var why := reason.GetOr("");
      var d := RequestedDelay(delay);
      if d.Failure? {
        return Failure(BadRequest(d.error));
      }
      Postpone(k, d.value, why, now);
      r := Success(orders[k]);
    }

    /** The writes of `mark_delayed` once the delay has been read. */
    method Postpone(k: nat, d: int, why: Option<string>, now: Timestamp)
      requires Valid()
      requires k < |orders| && d > 0
      modifies this
      ensures Valid()
      ensures items == old(items) && restaurants == old(restaurants) && customers == old(customers)
      ensures var e := OrderEvent(k + 1, PreparationDelayed(d, why, now), now);
        && orders == old(orders)[k := Evolve(old(orders[k]), e)]
        && orders[k].prep == Some(PreparationStatus.Delayed)
        && orders[k].delayMinutes == Some(AccumulatedDelay(old(orders[k]).delayMinutes, d))
        && orders[k].status == old(orders[k]).status
        && events == old(events) + [e]
        && notifications == old(notifications) +
             [NotifyPreparationDelayed(k + 1, d, if why.Some? && why.value != "" then why else None)]
    {
      var order := orders[k];
      order := order.(prep := Some(PreparationStatus.Delayed));
      order := order.(delayMinutes := Some((if order.delayMinutes.Some? then order.delayMinutes.value else 0) + d));
      SaveAndLog(k, order, OrderEvent(k + 1, PreparationDelayed(d, why, now), now));
    }

    /** `mark_cancelled`: needs a reason; cancels the order whatever its status. */
    method MarkCancelled(pk: int, reason: JsonField<string>, now: Timestamp) returns (r: Result<Order, ApiError>)
      requires Valid()
      modifies this
      ensures Valid()
      ensures items == old(items) && restaurants == old(restaurants) && customers == old(customers)
      ensures !(1 <= pk <= |old(orders)|) ==> r == Failure(NotFound) && unchanged(this)
      ensures 1 <= pk <= |old(orders)| && !ReasonGiven(reason) ==>
        r == Failure(BadRequest("Cancellation reason is required")) && unchanged(this)
      ensures 1 <= pk <= |old(orders)| && ReasonGiven(reason) ==>
        var e := OrderEvent(pk, PreparationCancelled(reason.v, now), now);
        && orders == old(orders)[pk - 1 := Evolve(old(orders[pk - 1]), e)]
        && orders[pk - 1].status == OrderStatus.Cancelled
        && orders[pk - 1].prep == Some(PreparationStatus.Cancelled)
        && orders[pk - 1].rejectionReason == Some(reason.v)
        && orders[pk - 1].cancelledAt == Some(now)
        && events == old(events) + [e]
        && notifications == old(notifications) + [NotifyPreparationCancelled(pk, reason.v)]
        && r == Success(orders[pk - 1])
    {
      if !(1 <= pk <= |orders|) {
        return Failure(NotFound);
      }
      var k := pk - 1;
      var order := orders[k];
      if !ReasonGiven(reason) {
        return Failure(BadRequest("Cancellation reason is required"));
      }
      order := order.(prep := Some(PreparationStatus.Cancelled));
      order := order.(status := OrderStatus.Cancelled);
      order := order.(cancelledAt := Some(now));
      order := order.(rejectionReason := Some(reason.v));
      SaveAndLog(k, order, OrderEvent(pk, PreparationCancelled(reason.v, now), now));
      r := Success(orders[k]);
    }

    /** `mark_done`: only from accepted or delayed; sets done and ready together. */
    method MarkDone(pk: int, now: Timestamp) returns (r: Result<Order, ApiError>)
      requires Valid()
      modifies this
      ensures Valid()
      ensures items == old(items) && restaurants == old(restaurants) && customers == old(customers)
      ensures !(1 <= pk <= |old(orders)|) ==> r == Failure(NotFound) && unchanged(this)
      ensures (&& 1 <= pk <= |old(orders)|
               && old(orders[pk - 1]).prep != Some(PreparationStatus.Accepted)
               && old(orders[pk - 1]).prep != Some(PreparationStatus.Delayed)) ==>
        r == Failure(BadRequest("Order must be accepted before marking as done")) && unchanged(this)
      ensures (&& 1 <= pk <= |old(orders)|
               && (old(orders[pk - 1]).prep == Some(PreparationStatus.Accepted) ||
                   old(orders[pk - 1]).prep == Some(PreparationStatus.Delayed))) ==>
        var e := OrderEvent(pk, PreparationDone(now), now);
        && orders == old(orders)[pk - 1 := Evolve(old(orders[pk - 1]), e)]
        && orders[pk - 1].prep == Some(PreparationStatus.Done)
        && orders[pk - 1].status == OrderStatus.Ready
        && events == old(events) + [e]
        && notifications == old(notifications) + [NotifyPreparationDone(pk)]
        && r == Success(orders[pk - 1])
    {
      if !(1 <= pk <= |orders|) {
        return Failure(NotFound);
      }
      var k := pk - 1;
      var order := orders[k];
      if order.prep != Some(PreparationStatus.Accepted) && order.prep != Some(PreparationStatus.Delayed) {
        return Failure(BadRequest("Order must be accepted before marking as done"));
      }
      order := order.(prep := Some(PreparationStatus.Done));
      order := order.(status := OrderStatus.Ready);
      SaveAndLog(k, order, OrderEvent(pk, PreparationDone(now), now));
      r := Success(orders[k]);
    }

    /**
     * `mark_delivered`: only from ready; changes the status alone (not the
     * preparation status, not `delivered_at`) and notifies nobody.
     */
    method MarkDelivered(pk: int, now: Timestamp) returns (r: Result<Order, ApiError>)
      requires Valid()
      modifies this
      ensures Valid()
      ensures items == old(items) && restaurants == old(restaurants) && customers == old(customers)
      ensures notifications == old(notifications)
      ensures !(1 <= pk <= |old(orders)|) ==> r == Failure(NotFound) && unchanged(this)
      ensures 1 <= pk <= |old(orders)| && old(orders[pk - 1]).status != OrderStatus.Ready ==>
        r == Failure(BadRequest("Order must be ready before marking as delivered")) && unchanged(this)
      ensures 1 <= pk <= |old(orders)| && old(orders[pk - 1]).status == OrderStatus.Ready ==>
        var e := OrderEvent(pk, OrderDelivered(now), now);
        && orders == old(orders)[pk - 1 := Evolve(old(orders[pk - 1]), e)]
        && orders[pk - 1] == old(orders[pk - 1]).(status := OrderStatus.Delivered, updatedAt := now)
        && events == old(events) + [e]
        && r == Success(orders[pk - 1])
    {
      if !(1 <= pk <= |orders|) {
        return Failure(NotFound);
      }
      var k := pk - 1;
      var order := orders[k];
      if order.status != OrderStatus.Ready {
        return Failure(BadRequest("Order must be ready before marking as delivered"));
      }
      order := order.(status := OrderStatus.Delivered);
      SaveAndLog(k, order, OrderEvent(pk, OrderDelivered(now), now));
      r := Success(orders[k]);
    }

    /**
     * `handle_order_created_event`: the three required keys are checked in
     * order, then both references; only then is the order inserted at
     * (created, pending), one item per payload entry, and one order_created
     * event holding the whole payload.
     */
    method HandleOrderCreated(data: Payload, now: Timestamp) returns (r: Result<nat, ApiError>)
      requires Valid()
      modifies this
      ensures Valid()
      ensures restaurants == old(restaurants) && customers == old(customers)
      ensures notifications == old(notifications)
      ensures r.Failure? ==> unchanged(this)
      ensures data.restaurantId.Missing? ==> r == Failure(BadRequest("Missing field: restaurant_id"))
      ensures !data.restaurantId.Missing? && data.customerId.Missing? ==>
        r == Failure(BadRequest("Missing field: customer_id"))
      ensures !data.restaurantId.Missing? && !data.customerId.Missing? && data.placedAt.Missing? ==>
        r == Failure(BadRequest("Missing field: placed_at"))
      ensures (&& !data.restaurantId.Missing? && !data.customerId.Missing? && !data.placedAt.Missing?
               && !(Names(data.restaurantId, restaurants) && Names(data.customerId, customers))) ==>
        r == Failure(BadRequest("Invalid restaurant_id or customer_id"))
      ensures Names(data.restaurantId, restaurants) && Names(data.customerId, customers) && data.placedAt.Null? ==>
        r == Failure(ServerError)
      ensures r.Success? <==>
        Names(data.restaurantId, restaurants) && Names(data.customerId, customers) && data.placedAt.Value?
      ensures r.Failure? ==> CreationRefusal(data, restaurants, customers) == Some(r.error)
      ensures r.Success? ==>
        && r.value == |old(orders)| + 1
        && orders == old(orders) + [CreatedOrder(r.value, data, now)]
        && orders[r.value - 1].status == OrderStatus.Created
        && orders[r.value - 1].prep == Some(PreparationStatus.Pending)
        && orders[r.value - 1].totalAmount == data.totalAmount.Get()
        && orders[r.value - 1].placedAt == data.placedAt.v
        && items == old(items) + MakeItems(r.value, data.items)
        && events == old(events) + [OrderEvent(r.value, OrderCreated(data), now)]
    {
      if data.restaurantId.Missing? {
        return Failure(BadRequest("Missing field: restaurant_id"));
      }
      if data.customerId.Missing? {
        return Failure(BadRequest("Missing field: customer_id"));
      }
      if data.placedAt.Missing? {
        return Failure(BadRequest("Missing field: placed_at"));
      }
      if !Names(data.restaurantId, restaurants) || !Names(data.customerId, customers) {
        return Failure(BadRequest("Invalid restaurant_id or customer_id"));
      }
      if data.placedAt.Null? {
        // placed_at is NOT NULL: the insert raises before any row is written
        return Failure(ServerError);
      }
      var id := InsertOrder(data, now);
      r := Success(id);
    }

    /**
     * The writes of `handle_order_created_event` once its checks have passed:
     * the order row, its items, and the order_created event.
     */
    method InsertOrder(data: Payload, now: Timestamp) returns (id: nat)
      requires Valid()
      requires Names(data.restaurantId, restaurants) && Names(data.customerId, customers)
      requires data.placedAt.Value?
      modifies this
      ensures Valid()
      ensures id == |old(orders)| + 1
      ensures orders == old(orders) + [CreatedOrder(id, data, now)]
      ensures items == old(items) + MakeItems(id, data.items)
      ensures events == old(events) + [OrderEvent(id, OrderCreated(data), now)]
      ensures notifications == old(notifications)
      ensures restaurants == old(restaurants) && customers == old(customers)
    {
      id := |orders| + 1;
      var e := OrderEvent(id, OrderCreated(data), now);
      var rows := ItemRows(id, data.items);
      ConsistentAfterCreation(orders, items, events, rows, data, now);
      NotificationsOfAppend(events, e);
      Insert(CreatedOrder(id, data, now), rows, e);
    }

    /** The order row first, then its items, then the event. */
    method Insert(order: Order, rows: seq<OrderItem>, e: OrderEvent)
      requires Consistent(orders + [order], items + rows, events + [e])
      requires notifications == NotificationsOf(events + [e])
      modifies this
      ensures Valid()
      ensures orders == old(orders) + [order] && items == old(items) + rows && events == old(events) + [e]
      ensures notifications == old(notifications)
      ensures restaurants == old(restaurants) && customers == old(customers)
    {
      orders := orders + [order];
      items := items + rows;
      events := events + [e];
    }

    /** The loop creating one item row per payload entry, with the model's defaults. */
    method ItemRows(id: nat, entries: seq<ItemPayload>) returns (rows: seq<OrderItem>)
      ensures rows == MakeItems(id, entries)
    {
      rows := [];
      var k := 0;
      while k < |entries|
        invariant 0 <= k <= |entries|
        invariant rows == MakeItems(id, entries[..k])
      {
        var entry := entries[k];
        rows := rows + [OrderItem(id,
                                  if entry.menuItem.Some? then entry.menuItem.value else "Item",
                                  if entry.quantity.Some? then entry.quantity.value else DefaultQuantity,
                                  if entry.unitPrice.Some? then entry.unitPrice.value else 0)];
        assert entries[..k + 1] == entries[..k] + [entry];
        k := k + 1;
      }
      assert entries[..k] == entries;
    }

    /**
     * `handle_order_cancelled_event`: a falsy order_id or an unknown one is
     * refused; otherwise the order is cancelled whatever its status, with the
     * payload's reason (empty when absent), and one order_cancelled event is
     * written. Nobody is notified.
     */
    method HandleOrderCancelled(data: Payload, now: Timestamp) returns (r: Result<nat, ApiError>)
      requires Valid()
      modifies this
      ensures Valid()
      ensures items == old(items) && restaurants == old(restaurants) && customers == old(customers)
      ensures notifications == old(notifications)
      ensures r.Failure? ==> unchanged(this)
      ensures r.Failure? ==> CancellationRefusal(data, |old(orders)|) == Some(r.error)
      ensures !(data.orderId.Value? && data.orderId.v != 0) ==>
        r == Failure(BadRequest("order_id is required"))
      ensures data.orderId.Value? && data.orderId.v != 0 && !(1 <= data.orderId.v <= |old(orders)|) ==>
        r == Failure(BadRequest("Order not found"))
      ensures data.orderId.Value? && 1 <= data.orderId.v <= |old(orders)| ==>
        var pk := data.orderId.v;
        var e := OrderEvent(pk, OrderCancelled(data), now);
        && orders == old(orders)[pk - 1 := Evolve(old(orders[pk - 1]), e)]
        && orders[pk - 1].status == OrderStatus.Cancelled
        && orders[pk - 1].prep == Some(PreparationStatus.Cancelled)
        && orders[pk - 1].rejectionReason == data.reason.GetOr("")
        && orders[pk - 1].cancelledAt == Some(now)
        && events == old(events) + [e]
        && r == Success(pk)
    {
      var reason := data.reason.GetOr("");
      if !(data.orderId.Value? && data.orderId.v != 0) {
        return Failure(BadRequest("order_id is required"));
      }
      var pk := data.orderId.v;
      if !(1 <= pk <= |orders|) {
        return Failure(BadRequest("Order not found"));
      }
      var k := pk - 1;
      var order := orders[k];
      order := order.(status := OrderStatus.Cancelled);
      order := order.(prep := Some(PreparationStatus.Cancelled));
      order := order.(rejectionReason := reason);
      order := order.(cancelledAt := Some(now));
      var e := OrderEvent(pk, OrderCancelled(data), now);
      SaveAndLog(k, order, e);
      r := Success(pk);
    }

    /**
     * The webhook endpoint: a missing or empty type is refused, the two known
     * types go to their handlers (a null `data` makes them raise), and any
     * other type is unsupported.
     */
    method Post(request: WebhookRequest, now: Timestamp) returns (r: Result<WebhookReply, ApiError>)
      requires Valid()
      modifies this
      ensures Valid()
      ensures restaurants == old(restaurants) && customers == old(customers)
      ensures items == old(items) || request.eventType == Value("order_created")
      ensures notifications == old(notifications)
      ensures r.Failure? ==> unchanged(this)
      ensures !(request.eventType.Value? && request.eventType.v != "") ==>
        r == Failure(BadRequest("Missing event type"))
      ensures request.eventType.Value? && request.eventType.v !in {"", "order_created", "order_cancelled"} ==>
        r == Failure(BadRequest("Unsupported event"))
      ensures (&& request.eventType.Value? && request.eventType.v in {"order_created", "order_cancelled"}
               && request.data.Null?) ==> r == Failure(ServerError)
      ensures request.eventType == Value("order_created") && !request.data.Null? ==>
        var d := PayloadOf(request.data);
        var id := |old(orders)| + 1;
        && (r.Failure? <==> CreationRefusal(d, old(restaurants), old(customers)).Some?)
        && (r.Failure? ==> r.error == CreationRefusal(d, old(restaurants), old(customers)).value)
        && (r.Success? ==>
              && r == Success(OrderCreatedReply(id))
              && orders == old(orders) + [CreatedOrder(id, d, now)]
              && items == old(items) + MakeItems(id, d.items)
              && events == old(events) + [OrderEvent(id, OrderCreated(d), now)])
      ensures request.eventType == Value("order_cancelled") && !request.data.Null? ==>
        var d := PayloadOf(request.data);
        && (r.Failure? <==> CancellationRefusal(d, |old(orders)|).Some?)
        && (r.Failure? ==> r.error == CancellationRefusal(d, |old(orders)|).value)
        && (r.Success? ==>
              var pk := d.orderId.v;
              var e := OrderEvent(pk, OrderCancelled(d), now);
              && r == Success(OrderCancelledReply(pk))
              && orders == old(orders)[pk - 1 := Evolve(old(orders[pk - 1]), e)]
              && items == old(items)
              && events == old(events) + [e])
      ensures r.Success? && r.value.OrderCreatedReply? ==>
        && request.eventType == Value("order_created")
        && orders == old(orders) + [CreatedOrder(r.value.orderId, PayloadOf(request.data), now)]
        && events == old(events) + [OrderEvent(r.value.orderId, OrderCreated(PayloadOf(request.data)), now)]
      ensures r.Success? && r.value.OrderCancelledReply? ==>
        && request.eventType == Value("order_cancelled")
        && 1 <= r.value.orderId <= |orders| == |old(orders)|
        && orders[r.value.orderId - 1].status == OrderStatus.Cancelled
        && events == old(events) + [OrderEvent(r.value.orderId, OrderCancelled(PayloadOf(request.data)), now)]
    {
      if !(request.eventType.Value? && request.eventType.v != "") {
        return Failure(BadRequest("Missing event type"));
      }
      var eventType := request.eventType.v;
      if eventType == "order_created" {
        if request.data.Null? {
          return Failure(ServerError);
        }
        var created := HandleOrderCreated(PayloadOf(request.data), now);
        if created.Failure? {
          return Failure(created.error);
        }
        return Success(OrderCreatedReply(created.value));
      }
      if eventType == "order_cancelled" {
        if request.data.Null? {
          return Failure(ServerError);
        }
        var cancelled := HandleOrderCancelled(PayloadOf(request.data), now);
        if cancelled.Failure? {
          return Failure(cancelled.error);
        }
        return Success(OrderCancelledReply(cancelled.value));
      }
      return Failure(BadRequest("Unsupported event"));
    }
  }
}

/**
 * What each audit event does to its order. Every transition of the order
 * views writes exactly one event and changes the order exactly as `Evolve`
 * says, so an order is always the replay of its own event log. The guards
 * each transition checks are `Admissible`; a log in which every event passed
 * its guard is `Legal`. The outbound notifications are a function of the log.
 */
module Lifecycle {
  import opened Wrappers
  import opened Models

  // ---------------------------------------------------------------------------
  // Creation from an order_created payload
  // ---------------------------------------------------------------------------

  /** The value of a key that validation has already found present. */
  function Present<T>(f: JsonField<T>, default: T): T
  {
    if f.Value? then f.v else default
  }

  /**
   * The row `handle_order_created_event` inserts: status created, preparation
   * pending, total taken from the payload as given (not computed from items).
   */
  function CreatedOrder(id: nat, p: Payload, now: Timestamp): Order
  {
    Order(id, Present(p.restaurantId, 0), Present(p.customerId, 0),
          OrderStatus.Created, Some(PreparationStatus.Pending),
          None, None, p.totalAmount.Get(), Present(p.placedAt, now),
          None, None, None, now, now)
  }

  /** The item row written for one payload entry, with defaults 'Item', 1 and 0. */
  function MakeItem(orderId: nat, p: ItemPayload): OrderItem
  {
    OrderItem(orderId,
              if p.menuItem.Some? then p.menuItem.value else "Item",
              if p.quantity.Some? then p.quantity.value else DefaultQuantity,
              if p.unitPrice.Some? then p.unitPrice.value else 0)
  }

  /** One item row per payload entry, in payload order. */
  function MakeItems(orderId: nat, ps: seq<ItemPayload>): (r: seq<OrderItem>)
    ensures |r| == |ps|
    ensures forall i :: 0 <= i < |ps| ==> r[i] == MakeItem(orderId, ps[i])
    ensures forall it :: it in r ==> it.orderId == orderId
  {
    if ps == [] then [] else MakeItems(orderId, ps[..|ps| - 1]) + [MakeItem(orderId, ps[|ps| - 1])]
  }

  /** An entry that names nothing becomes one 'Item' at quantity 1 and price 0. */
  lemma EmptyItemDefaults(orderId: nat)
    ensures var it := MakeItem(orderId, ItemPayload(None, None, None));
      it.menuItem == "Item" && it.quantity == 1 && TotalPrice(it) == 0
  {
  }

  /**
   * An entry created without a quantity gets the default quantity, so its
   * line total is its unit price, or 0 when that is absent too.
   */
  lemma DefaultQuantityTotal(orderId: nat, ps: seq<ItemPayload>)
    ensures forall i :: 0 <= i < |ps| && ps[i].quantity.None? ==>
      TotalPrice(MakeItems(orderId, ps)[i]) == if ps[i].unitPrice.Some? then ps[i].unitPrice.value else 0
  {
  }

  // ---------------------------------------------------------------------------
  // The effect of each event
  // ---------------------------------------------------------------------------

  /** `(order.delay_minutes or 0) + d`. */
  function AccumulatedDelay(before: Option<int>, d: int): int
  {
    (if before.Some? then before.value else 0) + d
  }

  /**
   * The order after a transition that logs `e`: the assignments the view
   * makes, plus `updated_at` refreshed by the save.
   */
  function Evolve(o: Order, e: OrderEvent): Order
    requires !e.data.OrderCreated?
  {
    var saved := o.(updatedAt := e.createdAt);
    match e.data
    case PreparationAccepted(at) =>
      saved.(prep := Some(PreparationStatus.Accepted), acceptedAt := Some(at))
    case PreparationRejected(reason, _) =>
      saved.(prep := Some(PreparationStatus.Rejected), rejectionReason := Some(reason),
             status := OrderStatus.Cancelled, cancelledAt := Some(e.createdAt))
    case PreparationDelayed(d, _, _) =>
      saved.(prep := Some(PreparationStatus.Delayed), delayMinutes := Some(AccumulatedDelay(o.delayMinutes, d)))
    case PreparationCancelled(reason, _) =>
      saved.(prep := Some(PreparationStatus.Cancelled), status := OrderStatus.Cancelled,
             cancelledAt := Some(e.createdAt), rejectionReason := Some(reason))
    case PreparationDone(_) =>
      saved.(prep := Some(PreparationStatus.Done), status := OrderStatus.Ready)
    case OrderDelivered(_) =>
      saved.(status := OrderStatus.Delivered)
    case OrderCancelled(p) =>
      saved.(status := OrderStatus.Cancelled, prep := Some(PreparationStatus.Cancelled),
             rejectionReason := p.reason.GetOr(""), cancelledAt := Some(e.createdAt))
  }

  /** The order (if any) after one more event of its log. */
  function Apply(prior: Option<Order>, e: OrderEvent): Option<Order>
  {
    if e.data.OrderCreated? then Some(CreatedOrder(e.orderId, e.data.payload, e.createdAt))
    else if prior.None? then None
    else Some(Evolve(prior.value, e))
  }

  /** The order an event log describes, oldest event first. */
  function Replay(log: seq<OrderEvent>): Option<Order>
  {
    if log == [] then None else Apply(Replay(log[..|log| - 1]), log[|log| - 1])
  }

  /**
   * The guard under which each view writes its event: accept needs an order
   * not already accepted, done needs accepted or delayed, delivered needs
   * ready; reject and cancel need a non-empty reason and a delay must be
   * positive; an inbound cancellation names the order. No guard looks at
   * `status` except delivered's.
   */
  predicate Admissible(o: Order, e: OrderEvent)
  {
    match e.data
    case OrderCreated(_) => false
    case PreparationAccepted(_) => o.prep != Some(PreparationStatus.Accepted)
    case PreparationRejected(reason, _) => reason != ""
    case PreparationDelayed(d, _, _) => d > 0
    case PreparationCancelled(reason, _) => reason != ""
    case PreparationDone(_) =>
      o.prep == Some(PreparationStatus.Accepted) || o.prep == Some(PreparationStatus.Delayed)
    case OrderDelivered(_) => o.status == OrderStatus.Ready
    case OrderCancelled(p) => p.orderId == Value(o.id as int)
  }

  /** A log that starts with its order_created event and whose every later event passed its guard. */
  ghost predicate Legal(log: seq<OrderEvent>)
  {
    && |log| > 0
    && if |log| == 1 then log[0].data.OrderCreated?
       else
         var before := log[..|log| - 1];
         var e := log[|log| - 1];
         && Legal(before)
         && !e.data.OrderCreated?
         && Replay(before).Some?
         && Admissible(Replay(before).value, e)
  }

  /** Some event of the log carries the tag `t`. */
  predicate Logged(log: seq<OrderEvent>, t: string)
  {
    exists i :: 0 <= i < |log| && EventType(log[i].data) == t
  }

  // ---------------------------------------------------------------------------
  // Outbound notifications
  // ---------------------------------------------------------------------------

  /** The calls made on the dispatch service client; reason is dropped from a delay notice when empty. */
  datatype Notification =
    | NotifyPreparationAccepted(orderId: nat)
    | NotifyPreparationRejected(orderId: nat, reason: string)
    | NotifyPreparationDelayed(orderId: nat, delayMinutes: int, delayReason: Option<string>)
    | NotifyPreparationCancelled(orderId: nat, cancelReason: string)
    | NotifyPreparationDone(orderId: nat)

  /** The notification sent after `e` is written: none for delivery and inbound events. */
  function Outbound(e: OrderEvent): seq<Notification>
  {
    match e.data
    case PreparationAccepted(_) => [NotifyPreparationAccepted(e.orderId)]
    case PreparationRejected(reason, _) => [NotifyPreparationRejected(e.orderId, reason)]
    case PreparationDelayed(d, reason, _) =>
      [NotifyPreparationDelayed(e.orderId, d, if reason.Some? && reason.value != "" then reason else None)]
    case PreparationCancelled(reason, _) => [NotifyPreparationCancelled(e.orderId, reason)]
    case PreparationDone(_) => [NotifyPreparationDone(e.orderId)]
    case _ => []
  }

  /** All notifications the event log implies, in log order. */
  function NotificationsOf(events: seq<OrderEvent>): seq<Notification>
  {
    if events == [] then []
    else NotificationsOf(events[..|events| - 1]) + Outbound(events[|events| - 1])
  }

  // ---------------------------------------------------------------------------
  // The whole store
  // ---------------------------------------------------------------------------

  /** The events of one order, in the order they were written. */
  function EventsOf(events: seq<OrderEvent>, id: int): (r: seq<OrderEvent>)
    ensures forall e :: e in r <==> e in events && e.orderId == id
  {
    if events == [] then []
    else
      var rest := EventsOf(events[..|events| - 1], id);
      var e := events[|events| - 1];
      assert events == events[..|events| - 1] + [e];
      if e.orderId == id then rest + [e] else rest
  }

  /**
   * The tables agree: order ids are 1, 2, ... in insertion order, every
   * event and item belongs to an existing order, and every order is the
   * replay of its own legal log.
   */
  ghost predicate Consistent(orders: seq<Order>, items: seq<OrderItem>, events: seq<OrderEvent>)
  {
    && (forall i :: 0 <= i < |orders| ==> orders[i].id == i + 1)
    && (forall e :: e in events ==> 1 <= e.orderId <= |orders|)
    && (forall it :: it in items ==> 1 <= it.orderId <= |orders|)
    && (forall i :: 0 <= i < |orders| ==> ReplaysLog(orders, events, i))
  }

  /** The order at index `i` (id `i + 1`) is the replay of its log. */
  ghost predicate ReplaysLog(orders: seq<Order>, events: seq<OrderEvent>, i: nat)
    requires i < |orders|
  {
    IsReplayOf(orders[i], EventsOf(events, i + 1))
  }

  /** The order is what its log, a legal one, describes. */
  ghost predicate IsReplayOf(o: Order, log: seq<OrderEvent>)
  {
    Legal(log) && Replay(log) == Some(o)
  }

  // ---------------------------------------------------------------------------
  // Appending one event
  // ---------------------------------------------------------------------------

  lemma EventsOfAppend(events: seq<OrderEvent>, e: OrderEvent, id: int)
    ensures EventsOf(events + [e], id) == EventsOf(events, id) + (if e.orderId == id then [e] else [])
  {
    assert (events + [e])[..|events|] == events;
  }

  lemma ReplayAppend(log: seq<OrderEvent>, e: OrderEvent)
    ensures Replay(log + [e]) == Apply(Replay(log), e)
  {
    assert (log + [e])[..|log|] == log;
  }

  lemma LegalAppend(log: seq<OrderEvent>, e: OrderEvent)
    requires Legal(log) && Replay(log).Some?
    requires Admissible(Replay(log).value, e)
    ensures Legal(log + [e]) && Replay(log + [e]) == Some(Evolve(Replay(log).value, e))
  {
    assert (log + [e])[..|log|] == log;
  }

  lemma NotificationsOfAppend(events: seq<OrderEvent>, e: OrderEvent)
    ensures NotificationsOf(events + [e]) == NotificationsOf(events) + Outbound(e)
    ensures Outbound(e) == [] ==> NotificationsOf(events + [e]) == NotificationsOf(events)
  {
    assert (events + [e])[..|events|] == events;
    assert NotificationsOf(events) + [] == NotificationsOf(events);
  }

  lemma LoggedAppend(log: seq<OrderEvent>, e: OrderEvent, t: string)
    ensures Logged(log + [e], t) <==> Logged(log, t) || EventType(e.data) == t
  {
    if Logged(log, t) {
      var i :| 0 <= i < |log| && EventType(log[i].data) == t;
      assert (log + [e])[i] == log[i];
    }
    if EventType(e.data) == t {
      assert (log + [e])[|log|] == e;
    }
  }

  /** A transition keeps the tables consistent when its event passed its guard. */
  lemma {:induction false} ConsistentAfterTransition(
    orders: seq<Order>, items: seq<OrderItem>, events: seq<OrderEvent>, k: nat, e: OrderEvent)
    requires Consistent(orders, items, events)
    requires k < |orders| && e.orderId == k + 1
    requires Admissible(orders[k], e)
    ensures !e.data.OrderCreated?
    ensures Consistent(orders[k := Evolve(orders[k], e)], items, events + [e])
  {
    var orders' := orders[k := Evolve(orders[k], e)];
    var events' := events + [e];
    forall i | 0 <= i < |orders'|
      ensures orders'[i].id == i + 1
      ensures ReplaysLog(orders', events', i)
    {
      assert ReplaysLog(orders, events, i);
      TransitionKeepsReplay(orders, events, k, e, i);
    }
    assert forall x :: x in events' ==> x in events || x == e;
  }

  /** One order's replay after a transition of order `k + 1`: its own if `i == k`, unchanged otherwise. */
  lemma TransitionKeepsReplay(orders: seq<Order>, events: seq<OrderEvent>, k: nat, e: OrderEvent, i: nat)
    requires k < |orders| && i < |orders| && e.orderId == k + 1
    requires Admissible(orders[k], e)
    requires ReplaysLog(orders, events, i)
    ensures ReplaysLog(orders[k := Evolve(orders[k], e)], events + [e], i)
  {
    EventsOfAppend(events, e, i + 1);
    if i == k {
      LegalAppend(EventsOf(events, i + 1), e);
    } else {
      assert EventsOf(events + [e], i + 1) == EventsOf(events, i + 1);
    }
  }

  /** Inserting an order with its items and its order_created event keeps the tables consistent. */
  lemma {:induction false} ConsistentAfterCreation(
    orders: seq<Order>, items: seq<OrderItem>, events: seq<OrderEvent>,
    newItems: seq<OrderItem>, p: Payload, now: Timestamp)
    requires Consistent(orders, items, events)
    requires forall it :: it in newItems ==> it.orderId == |orders| + 1
    ensures Consistent(orders + [CreatedOrder(|orders| + 1, p, now)], items + newItems,
                       events + [OrderEvent(|orders| + 1, OrderCreated(p), now)])
  {
    var id := |orders| + 1;
    var e := OrderEvent(id, OrderCreated(p), now);
    var orders' := orders + [CreatedOrder(id, p, now)];
    var events' := events + [e];
    forall i | 0 <= i < |orders'|
      ensures orders'[i].id == i + 1
      ensures ReplaysLog(orders', events', i)
    {
      EventsOfAppend(events, e, i + 1);
      if i == |orders| {
        FirstEventOfNewOrder(events, e);
      } else {
        assert ReplaysLog(orders, events, i);
        assert EventsOf(events', i + 1) == EventsOf(events, i + 1) && orders'[i] == orders[i];
      }
    }
    assert forall x :: x in events' ==> x in events || x == e;
    assert forall x :: x in items + newItems ==> x in items || x in newItems;
  }

  lemma {:induction false} NoEventsOf(events: seq<OrderEvent>, id: int)
    requires forall x :: x in events ==> x.orderId != id
    ensures EventsOf(events, id) == []
  {
    if events != [] {
      var before := events[..|events| - 1];
      assert forall x :: x in before ==> x in events;
      NoEventsOf(before, id);
    }
  }

  lemma FirstEventOfNewOrder(events: seq<OrderEvent>, e: OrderEvent)
    requires forall x :: x in events ==> x.orderId < e.orderId
    requires e.data.OrderCreated?
    ensures EventsOf(events + [e], e.orderId) == [e]
    ensures IsReplayOf(CreatedOrder(e.orderId, e.data.payload, e.createdAt), [e])
  {
    NoEventsOf(events, e.orderId);
    EventsOfAppend(events, e, e.orderId);
    ReplayAppend([], e);
    assert [] + [e] == [e];
  }

  // ---------------------------------------------------------------------------
  // What a legal log says about its order
  // ---------------------------------------------------------------------------

  lemma LegalReplays(log: seq<OrderEvent>)
    requires Legal(log)
    ensures Replay(log).Some?
  {
    assert log == log[..|log| - 1] + [log[|log| - 1]];
    ReplayAppend(log[..|log| - 1], log[|log| - 1]);
  }

  lemma LegalStartsWithCreation(log: seq<OrderEvent>)
    requires Legal(log)
    ensures log[0].data.OrderCreated?
    ensures forall i :: 1 <= i < |log| ==> !log[i].data.OrderCreated?
  {
    forall i | 0 <= i < |log|
      ensures log[i].data.OrderCreated? <==> i == 0
    {
      LegalPrefix(log, i + 1);
      assert log[..i + 1][i] == log[i];
    }
  }

  lemma {:induction false} LegalPrefix(log: seq<OrderEvent>, k: nat)
    requires Legal(log) && 1 <= k <= |log|
    ensures Legal(log[..k])
  {
    if k < |log| {
      var before := log[..|log| - 1];
      LegalPrefix(before, k);
      assert before[..k] == log[..k];
    } else {
      assert log[..k] == log;
    }
  }

  /**
   * What the status of a replayed order says about its log: ready, delivered
   * or done needs a preparation_done event, delivered needs an
   * order_delivered event, and a cancelled order has a cancellation time.
   */
  lemma {:induction false} StatusExplainedByLog(log: seq<OrderEvent>)
    requires Legal(log)
    ensures Replay(log).Some?
    ensures var o := Replay(log).value;
      && (o.status == OrderStatus.Ready || o.status == OrderStatus.Delivered ||
          o.prep == Some(PreparationStatus.Done)
          ==> Logged(log, "preparation_done"))
      && (o.status == OrderStatus.Delivered ==> Logged(log, "order_delivered"))
      && (o.status == OrderStatus.Cancelled ==> o.cancelledAt.Some?)
  {
    if |log| == 1 {
      LegalSingle(log);
    } else {
      StatusExplainedByLog(log[..|log| - 1]);
      LegalLast(log);
      LoggedLast(log, "preparation_done");
      LoggedLast(log, "order_delivered");
      EventTypeTags(log[|log| - 1].data);
    }
  }

  /**
   * A replayed order has a cancellation time exactly when a rejection or a
   * cancellation (staff or inbound) was logged for it.
   */
  lemma {:induction false} CancellationExplainedByLog(log: seq<OrderEvent>)
    requires Legal(log)
    ensures Replay(log).Some?
    ensures Replay(log).value.cancelledAt.Some? <==>
      Logged(log, "preparation_rejected") || Logged(log, "preparation_cancelled") ||
      Logged(log, "order_cancelled")
  {
    if |log| == 1 {
      LegalSingle(log);
    } else {
      CancellationExplainedByLog(log[..|log| - 1]);
      LegalLast(log);
      LoggedLast(log, "preparation_rejected");
      LoggedLast(log, "preparation_cancelled");
      LoggedLast(log, "order_cancelled");
      EventTypeTags(log[|log| - 1].data);
    }
  }

  /** A replayed order has an acceptance time exactly when a preparation_accepted event was logged for it. */
  lemma {:induction false} AcceptanceExplainedByLog(log: seq<OrderEvent>)
    requires Legal(log)
    ensures Replay(log).Some?
    ensures Replay(log).value.acceptedAt.Some? <==> Logged(log, "preparation_accepted")
  {
    if |log| == 1 {
      LegalSingle(log);
    } else {
      AcceptanceExplainedByLog(log[..|log| - 1]);
      LegalLast(log);
      LoggedLast(log, "preparation_accepted");
      EventTypeTags(log[|log| - 1].data);
    }
  }

  /** A delivered order was ready at an earlier point of its history. */
  lemma {:induction false} DeliveredWasReady(log: seq<OrderEvent>)
    requires Legal(log)
    requires Replay(log).Some? && Replay(log).value.status == OrderStatus.Delivered
    ensures exists k :: WasReadyAt(log, k) && k < |log|
  {
    var before := log[..|log| - 1];
    var e := log[|log| - 1];
    if |log| == 1 {
      assert false;
    }
    assert log == before + [e];
    ReplayAppend(before, e);
    if e.data.OrderDelivered? {
      assert WasReadyAt(log, |log| - 1);
    } else {
      DeliveredWasReady(before);
      var k :| WasReadyAt(before, k) && k < |before|;
      assert before[..k] == log[..k];
      assert WasReadyAt(log, k);
    }
  }

  /** After its first `k` events, the order was ready. */
  ghost predicate WasReadyAt(log: seq<OrderEvent>, k: int)
  {
    1 <= k <= |log| && Replay(log[..k]).Some? && Replay(log[..k]).value.status == OrderStatus.Ready
  }

  /** A logged preparation_done event means the order was ready at some point of its history. */
  lemma DoneMeansWasReady(log: seq<OrderEvent>)
    requires Legal(log) && Logged(log, "preparation_done")
    ensures exists k :: WasReadyAt(log, k)
  {
    var i :| 0 <= i < |log| && EventType(log[i].data) == "preparation_done";
    EventTypeTags(log[i].data);
    ReadyAfterDone(log, i);
  }

  lemma ReadyAfterDone(log: seq<OrderEvent>, i: nat)
    requires Legal(log) && i < |log| && log[i].data.PreparationDone?
    ensures WasReadyAt(log, i + 1)
  {
    LegalStartsWithCreation(log);
    LegalPrefix(log, i + 1);
    var upTo := log[..i + 1];
    assert upTo[i] == log[i];
    LegalLast(upTo);
  }

  /** A legal log of one event holds the creation alone. */
  lemma LegalSingle(log: seq<OrderEvent>)
    requires Legal(log) && |log| == 1
    ensures log[0].data.OrderCreated?
    ensures Replay(log) == Some(CreatedOrder(log[0].orderId, log[0].data.payload, log[0].createdAt))
    ensures forall t :: Logged(log, t) <==> t == "order_created"
  {
    assert log[..0] == [];
  }

  /** The tags of a log are those before its last event and the last event's own. */
  lemma LoggedLast(log: seq<OrderEvent>, t: string)
    requires |log| > 0
    ensures Logged(log, t) <==> Logged(log[..|log| - 1], t) || EventType(log[|log| - 1].data) == t
  {
    assert log == log[..|log| - 1] + [log[|log| - 1]];
    LoggedAppend(log[..|log| - 1], log[|log| - 1], t);
  }

  /** The last event of a legal log of two or more events evolves the replay of the rest. */
  lemma LegalLast(log: seq<OrderEvent>)
    requires Legal(log) && |log| > 1
    ensures var before := log[..|log| - 1];
      && Replay(before).Some?
      && Replay(log) == Some(Evolve(Replay(before).value, log[|log| - 1]))
  {
  }

  /** An order that was ready at some point of its history has a preparation_done event. */
  lemma WasReadyMeansDone(log: seq<OrderEvent>, k: int)
    requires Legal(log) && WasReadyAt(log, k)
    ensures Logged(log, "preparation_done")
  {
    LegalPrefix(log, k);
    StatusExplainedByLog(log[..k]);
    var i :| 0 <= i < k && EventType(log[..k][i].data) == "preparation_done";
    assert log[i] == log[..k][i];
  }

  /** The delays logged for an order, oldest first. */
  function Delays(log: seq<OrderEvent>): seq<int>
  {
    if log == [] then []
    else
      var e := log[|log| - 1];
      Delays(log[..|log| - 1]) + if e.data.PreparationDelayed? then [e.data.minutes] else []
  }

  function Sum(s: seq<int>): int
  {
    if s == [] then 0 else Sum(s[..|s| - 1]) + s[|s| - 1]
  }

  /**
   * Delays accumulate: `delay_minutes` is null until the first delay and then
   * the sum of every delay logged, each of which was positive.
   */
  lemma {:induction false} DelayIsLoggedTotal(log: seq<OrderEvent>)
    requires Legal(log)
    ensures Replay(log).Some?
    ensures forall d :: d in Delays(log) ==> d > 0
    ensures Replay(log).value.delayMinutes == if Delays(log) == [] then None else Some(Sum(Delays(log)))
  {
    var before := log[..|log| - 1];
    var e := log[|log| - 1];
    if |log| > 1 {
      DelayIsLoggedTotal(before);
      LegalLast(log);
      if e.data.PreparationDelayed? {
        var ds := Delays(before) + [e.data.minutes];
        assert Delays(log) == ds;
        assert ds[..|ds| - 1] == Delays(before);
        assert Sum(ds) == Sum(Delays(before)) + e.data.minutes;
      } else {
        assert Delays(log) == Delays(before);
      }
    } else {
      LegalSingle(log);
      assert before == [];
    }
  }

  // ---------------------------------------------------------------------------
  // Two concrete histories
  // ---------------------------------------------------------------------------

  /**
   * Accept, delay 10, delay 5, done and deliver: the order ends delivered
   * with preparation done, 15 minutes of delay and delivered_at still unset.
   */
  lemma HappyPathScenario(p: Payload, t: Timestamp)
    ensures var log := [OrderEvent(1, OrderCreated(p), t),
                        OrderEvent(1, PreparationAccepted(t + 1), t + 1),
                        OrderEvent(1, PreparationDelayed(10, Some(""), t + 2), t + 2),
                        OrderEvent(1, PreparationDelayed(5, Some(""), t + 3), t + 3),
                        OrderEvent(1, PreparationDone(t + 4), t + 4),
                        OrderEvent(1, OrderDelivered(t + 5), t + 5)];
      && Legal(log)
      && var o := Replay(log).value;
         o.status == OrderStatus.Delivered && o.prep == Some(PreparationStatus.Done) &&
         o.delayMinutes == Some(15) && o.acceptedAt == Some(t + 1) && o.deliveredAt.None?
  {
    var e0 := OrderEvent(1, OrderCreated(p), t);
    var e1 := OrderEvent(1, PreparationAccepted(t + 1), t + 1);
    var e2 := OrderEvent(1, PreparationDelayed(10, Some(""), t + 2), t + 2);
    var e3 := OrderEvent(1, PreparationDelayed(5, Some(""), t + 3), t + 3);
    var e4 := OrderEvent(1, PreparationDone(t + 4), t + 4);
    var e5 := OrderEvent(1, OrderDelivered(t + 5), t + 5);
    var l1 := [e0];
    assert l1 == [] + [e0] && l1[..0] == [];
    ReplayAppend([], e0);
    LegalAppend(l1, e1);
    var l2 := l1 + [e1];
    LegalAppend(l2, e2);
    var l3 := l2 + [e2];
    LegalAppend(l3, e3);
    var l4 := l3 + [e3];
    LegalAppend(l4, e4);
    var l5 := l4 + [e4];
    LegalAppend(l5, e5);
    assert l5 + [e5] == [e0, e1, e2, e3, e4, e5];
  }

  /**
   * No guard looks at `status` before accepting, so a cancelled order can
   * still be accepted and then marked done, which makes it ready again.
   */
  lemma CancelledOrderCanBeAccepted(p: Payload, t: Timestamp)
    ensures var log := [OrderEvent(1, OrderCreated(p), t),
                        OrderEvent(1, PreparationCancelled("closed", t + 1), t + 1),
                        OrderEvent(1, PreparationAccepted(t + 2), t + 2),
                        OrderEvent(1, PreparationDone(t + 3), t + 3)];
      && Legal(log[..3]) && Replay(log[..3]).value.status == OrderStatus.Cancelled
      && Replay(log[..3]).value.prep == Some(PreparationStatus.Accepted)
      && Legal(log) && Replay(log).value.status == OrderStatus.Ready
  {
  }
}

/**
 * The read side of the order views: the list filter of `get_queryset` and
 * the `pending`, `active` and `cancelled` collections. Each starts from all
 * orders newest first and only ever selects; `cancelled` also classifies an
 * order by the event types present in its log.
 */
module Projections {
  import opened Wrappers
  import opened Models
  import opened Lifecycle

  /**
   * The query string parameters the read side consults; None when the
   * parameter is absent. A parameter given as the empty string is ignored,
   * like an absent one, except that `stage` and `source` are compared with
   * their two recognised values and ignored otherwise.
   */
  datatype Query = Query(
    restaurantId: Option<int>,
    status: Option<string>,
    preparationStatus: Option<string>,
    stage: Option<string>,
    source: Option<string>)

  /** A non-empty parameter, the only kind a Python truth test lets through. */
  predicate Given(p: Option<string>)
  {
    p.Some? && p.value != ""
  }

  /**
   * The elements of `s` that satisfy `p`, in their original order: each is
   * kept as often as it occurs in `s`, and nothing else is kept.
   */
  function Select<T(!new)>(s: seq<T>, p: T -> bool): (r: seq<T>)
    ensures |r| <= |s|
    ensures forall x :: x in r <==> x in s && p(x)
    ensures forall x :: multiset(r)[x] == if p(x) then multiset(s)[x] else 0
  {
    if s == [] then []
    else
      assert s == [s[0]] + s[1..];
      (if p(s[0]) then [s[0]] else []) + Select(s[1..], p)
  }

  /** Selecting keeps a newest-first sequence newest first. */
  lemma {:induction false} SelectKeepsOrder<T(!new)>(s: seq<T>, p: T -> bool, key: T -> int)
    requires Descending(s, key)
    ensures Descending(Select(s, p), key)
  {
    if s != [] {
      SelectKeepsOrder(s[1..], p, key);
      var rest := Select(s[1..], p);
      forall j | 0 <= j < |rest|
        ensures key(s[0]) >= key(rest[j])
      {
        HeadAboveTail(s, rest[j], key);
      }
    }
  }

  /** In a newest-first sequence the head is at least as new as anything after it. */
  lemma HeadAboveTail<T>(s: seq<T>, x: T, key: T -> int)
    requires Descending(s, key) && s != [] && x in s[1..]
    ensures key(s[0]) >= key(x)
  {
    var m :| 0 <= m < |s[1..]| && s[1..][m] == x;
    assert s[m + 1] == x;
  }

  /** The order has some event of type `t` (a join on the events table). */
  predicate HasEvent(events: seq<OrderEvent>, id: int, t: string)
  {
    exists e :: e in events && e.orderId == id && EventType(e.data) == t
  }

  /** The three optional filters of `get_queryset`, by restaurant, status and preparation status. */
  predicate ListMatches(o: Order, q: Query)
  {
    && (q.restaurantId.Some? ==> o.restaurantId == q.restaurantId.value)
    && (Given(q.status) ==> OrderStatusValue(o.status) == q.status.value)
    && (Given(q.preparationStatus) ==>
          o.prep.Some? && PreparationStatusValue(o.prep.value) == q.preparationStatus.value)
  }

  /** Keeps the orders of the requested restaurant, when one is requested. */
  function ByRestaurant(orders: seq<Order>, restaurantId: Option<int>): (r: seq<Order>)
    ensures forall o :: o in r <==> o in orders && (restaurantId.Some? ==> o.restaurantId == restaurantId.value)
    ensures forall o :: multiset(r)[o] ==
                       if restaurantId.Some? ==> o.restaurantId == restaurantId.value then multiset(orders)[o] else 0
    ensures Descending(orders, PlacedAt) ==> Descending(r, PlacedAt)
  {
    if restaurantId.None? then orders
    else
      var id := restaurantId.value;
      var p := (o: Order) => o.restaurantId == id;
      assert Descending(orders, PlacedAt) ==> Descending(Select(orders, p), PlacedAt) by {
        if Descending(orders, PlacedAt) { SelectKeepsOrder(orders, p, PlacedAt); }
      }
      Select(orders, p)
  }

  /**
   * `get_queryset`: all orders newest first, narrowed by each filter that is
   * given; an unknown status text matches nothing.
   */
  function GetQueryset(orders: seq<Order>, q: Query): (r: seq<Order>)
    ensures forall o :: o in r <==> o in orders && ListMatches(o, q)
    ensures forall o :: multiset(r)[o] == if ListMatches(o, q) then multiset(orders)[o] else 0
    ensures Descending(r, PlacedAt)
  {
    var all := OrdersNewestFirst(orders);
    assert forall o :: o in all <==> o in multiset(orders);
    var byRestaurant := ByRestaurant(all, q.restaurantId);
    var byStatus :=
      if Given(q.status) then
        var s := q.status.value;
        var p := (o: Order) => OrderStatusValue(o.status) == s;
        SelectKeepsOrder(byRestaurant, p, PlacedAt);
        Select(byRestaurant, p)
      else byRestaurant;
    if Given(q.preparationStatus) then
      var s := q.preparationStatus.value;
      var p := (o: Order) => o.prep.Some? && PreparationStatusValue(o.prep.value) == s;
      SelectKeepsOrder(byStatus, p, PlacedAt);
      Select(byStatus, p)
    else byStatus
  }

  /** `pending`: orders whose preparation status is null or pending, newest first. */
  function Pending(orders: seq<Order>, q: Query): (r: seq<Order>)
    ensures forall o :: o in r <==>
      o in orders && ListMatches(o, q) &&
      (o.prep.None? || o.prep == Some(PreparationStatus.Pending))
    ensures forall o :: multiset(r)[o] ==
                       if ListMatches(o, q) && (o.prep.None? || o.prep == Some(PreparationStatus.Pending))
                       then multiset(orders)[o] else 0
    ensures Descending(r, PlacedAt)
  {
    var p := (o: Order) => o.prep.None? || o.prep == Some(PreparationStatus.Pending);
    var qs := GetQueryset(orders, q);
    SelectKeepsOrder(qs, p, PlacedAt);
    ByRestaurant(Select(qs, p), q.restaurantId)
  }

  /** `active`: orders whose preparation is accepted or delayed, newest first. */
  function Active(orders: seq<Order>, q: Query): (r: seq<Order>)
    ensures forall o :: o in r <==>
      o in orders && ListMatches(o, q) &&
      (o.prep == Some(PreparationStatus.Accepted) || o.prep == Some(PreparationStatus.Delayed))
    ensures forall o :: multiset(r)[o] ==
                       if ListMatches(o, q) && (o.prep == Some(PreparationStatus.Accepted) || o.prep == Some(PreparationStatus.Delayed))
                       then multiset(orders)[o] else 0
    ensures Descending(r, PlacedAt)
  {
    var p := (o: Order) =>
      o.prep == Some(PreparationStatus.Accepted) || o.prep == Some(PreparationStatus.Delayed);
    var qs := GetQueryset(orders, q);
    SelectKeepsOrder(qs, p, PlacedAt);
    ByRestaurant(Select(qs, p), q.restaurantId)
  }

  /** Keeps the orders that have (`wanted`) or lack (not `wanted`) an event of type `t`. */
  function ByEvent(orders: seq<Order>, events: seq<OrderEvent>, t: string, wanted: bool): (r: seq<Order>)
    ensures forall o :: o in r <==> o in orders && HasEvent(events, o.id, t) == wanted
    ensures forall o :: multiset(r)[o] == if HasEvent(events, o.id, t) == wanted then multiset(orders)[o] else 0
    ensures Descending(orders, PlacedAt) ==> Descending(r, PlacedAt)
  {
    var p := (o: Order) => HasEvent(events, o.id, t) == wanted;
    assert Descending(orders, PlacedAt) ==> Descending(Select(orders, p), PlacedAt) by {
      if Descending(orders, PlacedAt) { SelectKeepsOrder(orders, p, PlacedAt); }
    }
    Select(orders, p)
  }

  /** The `stage` filter of `cancelled`: by the presence of a preparation_done event. */
  predicate StageMatches(o: Order, events: seq<OrderEvent>, stage: Option<string>)
  {
    && (stage == Some("ready") ==> HasEvent(events, o.id, "preparation_done"))
    && (stage == Some("preparation") ==> !HasEvent(events, o.id, "preparation_done"))
  }

  /** The `source` filter of `cancelled`: by the presence of an order_cancelled event. */
  predicate SourceMatches(o: Order, events: seq<OrderEvent>, source: Option<string>)
  {
    && (source == Some("kyte") ==> HasEvent(events, o.id, "order_cancelled"))
    && (source == Some("staff") ==> !HasEvent(events, o.id, "order_cancelled"))
  }

  /** The conditions under which `cancelled` lists an order. */
  predicate CancelledMatches(o: Order, events: seq<OrderEvent>, q: Query)
  {
    && ListMatches(o, q) && o.status == OrderStatus.Cancelled
    && StageMatches(o, events, q.stage)
    && SourceMatches(o, events, q.source)
  }

  /** Applies the `stage` filter; any value other than the two recognised ones keeps everything. */
  function ByStage(orders: seq<Order>, events: seq<OrderEvent>, stage: Option<string>): (r: seq<Order>)
    ensures forall o :: o in r <==> o in orders && StageMatches(o, events, stage)
    ensures forall o :: multiset(r)[o] == if StageMatches(o, events, stage) then multiset(orders)[o] else 0
    ensures Descending(orders, PlacedAt) ==> Descending(r, PlacedAt)
  {
    if stage == Some("ready") then ByEvent(orders, events, "preparation_done", true)
    else if stage == Some("preparation") then ByEvent(orders, events, "preparation_done", false)
    else orders
  }

  /** Applies the `source` filter; any value other than the two recognised ones keeps everything. */
  function BySource(orders: seq<Order>, events: seq<OrderEvent>, source: Option<string>): (r: seq<Order>)
    ensures forall o :: o in r <==> o in orders && SourceMatches(o, events, source)
    ensures forall o :: multiset(r)[o] == if SourceMatches(o, events, source) then multiset(orders)[o] else 0
    ensures Descending(orders, PlacedAt) ==> Descending(r, PlacedAt)
  {
    if source == Some("kyte") then ByEvent(orders, events, "order_cancelled", true)
    else if source == Some("staff") then ByEvent(orders, events, "order_cancelled", false)
    else orders
  }

  /**
   * `cancelled`: orders whose status is cancelled, newest first. Stage
   * `ready` keeps those whose log has a preparation_done event and stage
   * `preparation` the others; source `kyte` keeps those whose log has an
   * order_cancelled event and source `staff` the others. Any other stage or
   * source value filters nothing.
   */
  function Cancelled(orders: seq<Order>, events: seq<OrderEvent>, q: Query): (r: seq<Order>)
    ensures forall o :: o in r <==> o in orders && CancelledMatches(o, events, q)
    ensures forall o :: multiset(r)[o] ==
                       if CancelledMatches(o, events, q) then multiset(orders)[o] else 0
    ensures Descending(r, PlacedAt)
  {
    var p := (o: Order) => o.status == OrderStatus.Cancelled;
    var qs := GetQueryset(orders, q);
    SelectKeepsOrder(qs, p, PlacedAt);
    var cancelled := ByRestaurant(Select(qs, p), q.restaurantId);
    BySource(ByStage(cancelled, events, q.stage), events, q.source)
  }

  // ---------------------------------------------------------------------------
  // What the classifications mean for a consistent store
  // ---------------------------------------------------------------------------

  /** The join on the events table sees exactly the order's own log. */
  lemma HasEventIsLogged(events: seq<OrderEvent>, id: int, t: string)
    ensures HasEvent(events, id, t) <==> Logged(EventsOf(events, id), t)
  {
    var log := EventsOf(events, id);
    if HasEvent(events, id, t) {
      var e :| e in events && e.orderId == id && EventType(e.data) == t;
      assert e in log;
      var i :| 0 <= i < |log| && log[i] == e;
    }
    if Logged(log, t) {
      var i :| 0 <= i < |log| && EventType(log[i].data) == t;
      assert log[i] in log;
    }
  }

  /** A listed order is the replay of its own legal log. */
  lemma ListedOrderIsReplay(orders: seq<Order>, items: seq<OrderItem>, events: seq<OrderEvent>, o: Order)
    requires Consistent(orders, items, events) && o in orders
    ensures IsReplayOf(o, EventsOf(events, o.id))
  {
    var i :| 0 <= i < |orders| && orders[i] == o;
    assert ReplaysLog(orders, events, i);
  }

  /** Every order `cancelled?stage=ready` lists was ready at some point of its history. */
  lemma ReadyStageWasReady(orders: seq<Order>, items: seq<OrderItem>, events: seq<OrderEvent>, q: Query, o: Order)
    requires Consistent(orders, items, events)
    requires q.stage == Some("ready") && o in Cancelled(orders, events, q)
    ensures exists k :: WasReadyAt(EventsOf(events, o.id), k)
  {
    ListedOrderIsReplay(orders, items, events, o);
    HasEventIsLogged(events, o.id, "preparation_done");
    DoneMeansWasReady(EventsOf(events, o.id));
  }

  /** No order `cancelled?stage=preparation` lists was ever ready. */
  lemma PreparationStageNeverReady(orders: seq<Order>, items: seq<OrderItem>, events: seq<OrderEvent>, q: Query, o: Order, k: int)
    requires Consistent(orders, items, events)
    requires q.stage == Some("preparation") && o in Cancelled(orders, events, q)
    ensures !WasReadyAt(EventsOf(events, o.id), k)
  {
    ListedOrderIsReplay(orders, items, events, o);
    HasEventIsLogged(events, o.id, "preparation_done");
    if WasReadyAt(EventsOf(events, o.id), k) {
      WasReadyMeansDone(EventsOf(events, o.id), k);
    }
  }

  /** Every order `cancelled?source=staff` lists was rejected or cancelled by staff. */
  lemma StaffSourceWasStaffCancelled(orders: seq<Order>, items: seq<OrderItem>, events: seq<OrderEvent>, q: Query, o: Order)
    requires Consistent(orders, items, events)
    requires q.source == Some("staff") && o in Cancelled(orders, events, q)
    ensures HasEvent(events, o.id, "preparation_rejected") || HasEvent(events, o.id, "preparation_cancelled")
  {
    ListedOrderIsReplay(orders, items, events, o);
    var log := EventsOf(events, o.id);
    StatusExplainedByLog(log);
    CancellationExplainedByLog(log);
    HasEventIsLogged(events, o.id, "order_cancelled");
    HasEventIsLogged(events, o.id, "preparation_rejected");
    HasEventIsLogged(events, o.id, "preparation_cancelled");
  }

  /** The two stages split the cancelled orders: each is listed under exactly one of them. */
  lemma StagesPartitionCancelled(orders: seq<Order>, events: seq<OrderEvent>, q: Query, o: Order)
    requires q.stage.None?
    ensures o in Cancelled(orders, events, q) <==>
      o in Cancelled(orders, events, q.(stage := Some("ready"))) ||
      o in Cancelled(orders, events, q.(stage := Some("preparation")))
    ensures !(o in Cancelled(orders, events, q.(stage := Some("ready"))) &&
              o in Cancelled(orders, events, q.(stage := Some("preparation"))))
  {
    var ready := q.(stage := Some("ready"));
    var preparation := q.(stage := Some("preparation"));
    assert ListMatches(o, ready) == ListMatches(o, q) == ListMatches(o, preparation);
    assert o in Cancelled(orders, events, ready) <==>
      o in Cancelled(orders, events, q) && HasEvent(events, o.id, "preparation_done");
    assert o in Cancelled(orders, events, preparation) <==>
      o in Cancelled(orders, events, q) && !HasEvent(events, o.id, "preparation_done");
  }
}

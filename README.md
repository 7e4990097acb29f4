# Restaurant order lifecycle — a Dafny model

This project models the order lifecycle of a restaurant back office: a Django
application that receives orders from a dispatch service (Kyte) through a
webhook and lets restaurant staff move each order through preparation.

The persistent state has four parts:

- the orders table;
- the order items table;
- an append-only table of audit events;
- the restaurant and customer ids on file.

Each staff action works on one order. It does the following, in order:

1. reads the order and checks its guard (a 400 response when the guard fails);
2. assigns fields and saves the order, which stamps `updated_at`;
3. writes exactly one audit event;
4. for every action except delivery, notifies the dispatch service.

The actions are accept, reject, delay, cancel, mark done and mark delivered.
The webhook creates orders (with their items and an `order_created` event) and
cancels orders (with an `order_cancelled` event).

The read side has four queries: the filtered list, `pending`, `active` and
`cancelled`. They only select orders, newest `placed_at` first. `cancelled`
also sorts its orders:

- by stage, depending on whether a `preparation_done` event exists;
- by source, depending on whether an `order_cancelled` event exists.

## How the model is organised

- `wrappers.dfy` — `Option` and `Result`.
- `models.dfy` (module `Models`) — the two status enumerations and orders, items
  and events as datatypes.
  - Inbound JSON objects are `Payload`s whose keys are `JsonField`s (absent,
    null or a value).
  - The default listing orders are defined as an insertion sort by a key.
- `numerals.dfy` (module `Numerals`) — Python's `int()` on decimal text, which
  `mark_delayed` applies to a text delay, and `str()` as its inverse.
- `lifecycle.dfy` (module `Lifecycle`) — the effect of each event on its order:
  - `Evolve` gives the effect of one event, `Replay` of a whole log.
  - `Admissible` is the guard each transition checks.
  - `Legal` holds for logs in which every event passed its guard.
  - `Consistent` is the invariant of the tables: every order is the replay of
    its own legal log.
  - `NotificationsOf` gives the outbound notifications as a function of the log.
- `projections.dfy` (module `Projections`) — the read-side queries as functions
  of the tables, and what their classifications mean for a consistent store.
- `views.dfy` (module `Views`) — class `Store` holds the tables as fields that
  its methods update in place.
  - There is one method per staff action and one per inbound handler, plus the
    webhook dispatch `Post`.
  - Each method is specified field by field and keeps `Valid()` (which is
    `Consistent` plus the notification trace).

The model makes these choices:

- All reads of the clock within one request are one instant: the `now` parameter.
- Money is integer cents.
- An order's id is its position in the table plus one.
- The notifications sent to the dispatch service are recorded in a ghost trace.

The model follows the code where its behaviour differs from what a reader
might expect of an order lifecycle:

- `delivered_at` is never set by the lifecycle actions. `mark_delivered` changes
  only the status.
- No guard looks at the order status except `mark_delivered`'s. So a cancelled
  order can still be accepted and marked done, after which it is ready again
  (`Lifecycle.CancelledOrderCanBeAccepted`).
- Rejecting and cancelling, from staff or inbound, apply to an order in any
  state, including a delivered one.
- The two statuses are not kept in step. For example, an order can be
  `cancelled` with preparation `accepted`. The model states the facts the code
  does keep instead (the `...ExplainedByLog` lemmas).

These hold only for orders created through the webhook and changed only by the
six staff actions and the inbound cancellation:

- `Consistent` and `Valid()`;
- the `...ExplainedByLog` and `WasReady...` lemmas;
- the history lemmas of the read side.

Other write paths in the application put orders outside this invariant:

- the generic update endpoints of the order view set, and the admin, write
  `status`, `preparation_status` and the timestamps with no guard and no event;
- the `simulate` endpoint and the data-generation command insert orders at
  (created, null) with no `order_created` event;
- the seed command inserts orders in later states (for example ready and done)
  with no events at all.

Such an order, once cancelled, can be listed under `stage=preparation` though it
was ready. The null branch of `pending` serves the generated orders. The read
side's functions themselves (`GetQueryset`, `Pending`, `Active`, `Cancelled`)
hold for any table.

## Model

| member | source | states |
|---|---|---|
| Models.OrderStatusChoices | orders/models.py:35-41 | an order status is one of exactly six choices, and distinct choices are stored under distinct texts |
| Models.PreparationStatusChoices | orders/models.py:44-50 | a preparation status is one of exactly six choices, and distinct choices are stored under distinct texts |
| Models.EventTypeIdentifiesKind | orders/models.py:130-131 | two events carry the same `event_type` tag exactly when they are of the same kind |
| Models.EventTypeTags | orders/views.py:259-271 | each tag the read side filters on (`preparation_done`, `order_cancelled`, ...) names exactly one kind of event |
| Models.SortDescending | orders/models.py:87 | the listing order is a permutation of the input (same multiset) and is non-increasing by the key |
| Models.OrdersNewestFirst | orders/models.py:87 | orders are listed by `-placed_at`: a permutation of the table, newest first |
| Models.EventsNewestFirst | orders/models.py:136 | events are listed by `-created_at`: a permutation of the table, newest first |
| Models.NewestFirstOfChronologicalLog | orders/models.py:136 | a log written with strictly increasing timestamps is listed in exactly the reverse of its write order |
| Numerals.ParseFormatRoundTrip | orders/views.py:166 | `int(str(n)) == n` for every integer `n` |
| Numerals.ParseIgnoresPadding | orders/views.py:166 | surrounding whitespace does not change what `int()` reads |
| Lifecycle.MakeItems | orders/views.py:345-353 | one item row per payload entry, in payload order, each belonging to the new order, with menu item, quantity and unit price defaulting to 'Item', 1 and 0 |
| Lifecycle.DefaultQuantityTotal | orders/models.py:107-120 | every item the webhook creates from an entry without a quantity gets the default quantity 1, so its line total `quantity * unit_price` is the entry's unit price, or 0 when that is absent |
| Lifecycle.EmptyItemDefaults | orders/views.py:350-352 | an entry that names nothing becomes one 'Item' at quantity 1 with a line total of 0 |
| Lifecycle.LegalAppend | orders/views.py:129-221 | appending an event whose guard holds on the replayed order keeps the log legal, and the new replay is that order evolved by the event |
| Lifecycle.ConsistentAfterTransition | orders/views.py:129-221 | a staff transition whose guard holds, saved and logged, keeps every order equal to the replay of its legal log |
| Lifecycle.ConsistentAfterCreation | orders/views.py:336-355 | inserting the created order with its items and its `order_created` event keeps the tables consistent |
| Lifecycle.StatusExplainedByLog | orders/views.py:199-221 | ready, delivered or done implies a logged `preparation_done`; delivered implies a logged `order_delivered`; cancelled implies a cancellation time |
| Lifecycle.CancellationExplainedByLog | orders/views.py:142-197 | an order has a cancellation time exactly when a rejection, a staff cancellation or an inbound cancellation is in its log |
| Lifecycle.AcceptanceExplainedByLog | orders/views.py:129-140 | an order has an acceptance time exactly when a `preparation_accepted` event is in its log |
| Lifecycle.DeliveredWasReady | orders/views.py:212-221 | a delivered order was ready at an earlier point of its history |
| Lifecycle.DoneMeansWasReady | orders/views.py:199-210 | a logged `preparation_done` event means the order was ready at some point |
| Lifecycle.WasReadyMeansDone | orders/views.py:199-210 | an order that was ever ready has a `preparation_done` event in its log |
| Lifecycle.DelayIsLoggedTotal | orders/views.py:158-181 | every logged delay is positive, and `delay_minutes` is null when none was logged and otherwise the sum of the logged delays |
| Lifecycle.HappyPathScenario | orders/views.py:129-221 | accept, delay 10, delay 5, done, deliver is a legal history that ends delivered, done, with 15 minutes of delay, the acceptance time kept, and `delivered_at` unset |
| Lifecycle.CancelledOrderCanBeAccepted | orders/views.py:129-140 | a staff-cancelled order passes the accept guard and then the done guard, and ends ready |
| Projections.GetQueryset | orders/views.py:42-55 | lists exactly the orders matching each given filter (restaurant, status, preparation status; an empty parameter is ignored), each as often as it occurs in the table, newest first |
| Projections.Pending | orders/views.py:223-232 | lists exactly the matching orders whose preparation status is null or pending, each as often as it occurs in the table, newest first |
| Projections.Active | orders/views.py:234-243 | lists exactly the matching orders whose preparation status is accepted or delayed, each as often as it occurs in the table, newest first |
| Projections.Cancelled | orders/views.py:245-273 | lists exactly the matching cancelled orders that pass the stage and source filters, each as often as it occurs in the table (the event join adds no duplicates), newest first |
| Projections.ByStage | orders/views.py:259-264 | `stage=ready` keeps exactly the orders with a `preparation_done` event and `stage=preparation` exactly those without one, with their multiplicities; any other value keeps everything; newest first stays newest first |
| Projections.BySource | orders/views.py:266-271 | `source=kyte` keeps exactly the orders with an `order_cancelled` event and `source=staff` exactly those without one, with their multiplicities; any other value keeps everything; newest first stays newest first |
| Projections.ByRestaurant | orders/views.py:229-230 | keeps exactly the orders of the requested restaurant when one is requested, each as often as before, and a newest-first list stays newest first |
| Projections.HasEventIsLogged | orders/views.py:262-271 | the join on the events table sees exactly the order's own log |
| Projections.ReadyStageWasReady | orders/views.py:259-262 | in a consistent store, every order listed under `stage=ready` was ready at some point |
| Projections.PreparationStageNeverReady | orders/views.py:263-264 | in a consistent store, no order listed under `stage=preparation` was ever ready |
| Projections.StaffSourceWasStaffCancelled | orders/views.py:266-271 | in a consistent store, every order listed under `source=staff` was rejected or cancelled by staff |
| Projections.StagesPartitionCancelled | orders/views.py:259-264 | the two stages split the cancelled list: each listed order is under exactly one stage |
| Views.RequestedDelay | orders/views.py:160-170 | an absent or falsy delay is "required"; a present one that `int()` cannot read or that is not positive is "invalid"; an accepted delay is positive; an integer delay is itself; `True` is 1 |
| Views.TextDelayRoundTrip | orders/views.py:163-168 | a delay sent as the text of `n` is accepted as `n` when `n > 0` and is invalid otherwise |
| Views.CreationRefusal | orders/views.py:323-343 | the error the order-created handler raises, in its check order; there is none exactly when both ids name rows on file and `placed_at` is non-null, and a 400 is raised only for a missing key or an unknown reference |
| Views.CancellationRefusal | orders/views.py:364-372 | the error the order-cancelled handler raises; there is none exactly when `order_id` names an order on file, and every refusal is a 400 |
| Views.Store.SaveAndLog | orders/views.py:57-58 | a save stamps `updated_at`, exactly one event is appended, and exactly that event's notification is sent; the tables stay consistent |
| Views.Store.AcceptPreparation | orders/views.py:129-140 | unknown order: 404 and nothing changes; already accepted: 400 and nothing changes; otherwise accepted at `now`, one `preparation_accepted` event, one acceptance notification, and the saved order returned |
| Views.Store.RejectPreparation | orders/views.py:142-156 | a missing, null or empty reason is refused with nothing changed; otherwise the order is rejected and cancelled whatever its status, with the reason kept, one event written and the rejection notified |
| Views.Store.MarkDelayed | orders/views.py:158-181 | refusals per `RequestedDelay` with nothing changed; otherwise preparation is delayed, the delay is added to the previous total (null counts as 0), only this call's delay is logged, and the reason is forwarded only when non-empty |
| Views.Store.MarkCancelled | orders/views.py:183-197 | a missing, null or empty reason is refused with nothing changed; otherwise the order is cancelled whatever its status, with the reason and time, one event written and the cancellation notified |
| Views.Store.MarkDone | orders/views.py:199-210 | refused unless the preparation is accepted or delayed; otherwise done and ready together, one event written and the completion notified |
| Views.Store.MarkDelivered | orders/views.py:212-221 | refused unless the order is ready; otherwise only the status becomes delivered (`delivered_at` stays as it was), one event is written and nobody is notified |
| Views.Store.HandleOrderCreated | orders/views.py:318-356 | the required keys are checked in order, then both references; it succeeds exactly when both ids name rows on file and `placed_at` is non-null, and every failure is `CreationRefusal`'s error with nothing written; on success it inserts a created/pending order, one item per entry and one `order_created` event holding the payload, and notifies nobody |
| Views.Store.ItemRows | orders/views.py:345-353 | the item loop yields exactly one row per payload entry, in order |
| Views.Store.HandleOrderCancelled | orders/views.py:359-381 | a falsy `order_id` is "required" and an unknown one is "not found", with nothing changed (`CancellationRefusal`); otherwise the order is cancelled whatever its status, with the payload's reason, one `order_cancelled` event is written, and nobody is notified |
| Views.Store.Post | orders/views.py:294-315 | a missing or empty type is refused; a null `data` is a server error; any other type is unsupported. For `order_created` (absent `data` read as `{}`), it succeeds exactly when the handler's checks pass, returns the handler's error otherwise, and on success replies with the new id after inserting the order, its items and its event. For `order_cancelled`, it succeeds exactly when `order_id` names an order, returns the handler's error otherwise, and on success cancels that order alone and logs one event. The restaurants and customers on file never change |

## Left out

- The HTTP layer, serializers, routing, authentication and the ORM. Tables are
  sequences and set fields of one `Store` object.
- The object lookup (`get_object`) of a staff action: modelled as a lookup by id
  in the whole table. The query-string filters of the list view are not applied
  to it.
- The generic create, update and delete endpoints of the view sets, the `simulate`
  endpoint, the management commands that seed and generate data, and the admin.
  They write orders outside the lifecycle, with no guard and no event. The
  invariant and the history lemmas do not cover the orders they write (see
  above).
- Decimal amounts: money is integer cents.
- The wall clock: every clock read in a request is one instant `now`. So, for
  example, `cancelled_at` and the logged `rejected_at` are equal in the model,
  while the code reads the clock twice.
- Database constraint failures in the middle of a handler. A null `items` list
  or a null field in an item makes the code fail after the order row is
  written. The model treats `items` as a list of entries whose keys are absent
  or present with a value.
- A `placed_at` string that cannot be read as a date. The insert is the
  handler's first write, so the code replies 500 with nothing written, like the
  null `placed_at` the model returns as `ServerError`. The model's timestamps
  are integers and cannot express an unreadable one.
- JSON ids that are not integers. `restaurant_id` in the query string is
  `Option<int>`; an unparsable value is not modelled.
- Float delay values. `int()` of a float truncates it; the model's delay input
  is an integer, a string or a boolean.
- Non-ASCII whitespace and digits, which Python's `int()` also accepts.
- The order in which item rows are written relative to the order row: the model
  builds the rows first and then writes the order, its items and its event
  together, which is the same final state.
- Concurrent requests: each request runs alone.
- Views.Store.MarkDelayed: `delay_minutes` is an integer column, so a running
  total beyond the database's integer range makes the save fail with a 500,
  writing no event and sending no notification. The model's integers are
  unbounded, so it accepts the delay. The range depends on the database backend.
- Views.Store.HandleOrderCreated: `total_amount` is a decimal of ten digits, two
  after the point. A larger amount makes the insert fail on backends that
  enforce the precision. The model stores any amount.
- Views.Store.RejectPreparation and Views.Store.MarkCancelled: the reason is
  modelled as a JSON string. In the code, a non-zero number or a non-empty list
  or object is truthy, so it is accepted and stored; the number 0 and an empty
  list or object are refused as missing. The model cannot express these kinds.
- Views.Store.Post: the event type is modelled as a JSON string. A type of any
  other JSON kind reaches "Unsupported event" when truthy and "Missing event
  type" when falsy; the model cannot express it.
- Views.RequestedDelay: `delay_minutes` is an integer, a string or a boolean. An
  empty list or object is "required" in the code and a non-empty one is
  "Invalid delay minutes value"; the model does not have these kinds.
- Logging inside the dispatch-service client, and its mocked reply, which the
  views ignore.

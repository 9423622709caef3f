# Order management backend: domain and services

This project models the core of an order-management backend, written in C#
over a MongoDB store. It covers:

- **The order aggregate.** `Order.Create` is a guard chain. `Order.Update`
  applies an event to an order. It is a small state machine driven by the
  table of valid transitions:
  - `Created` → `PaymentReceived` or `Canceled`
  - `PaymentReceived` → `Invoiced`
  - `Invoiced` → `Returned`
  - `Canceled` and `Returned` are terminal.
- **The value objects** `Buyer`, `Product` and `Event`. Each is created by a
  guard chain that reports exactly one error.
- **The search filters.** These are optional clauses that build one predicate
  over orders.
- **The two application services.**
  - `EventsService.RegisterEvent`: fetch the order, build the event, update the
    order, save the event, then save the order.
  - `OrdersService.CreateOrder`, `GetOrder` and `SearchOrders`.
- **The repositories' contracts.** The services call the orders, events and
  counters repositories. Those are modelled as an in-memory store with the
  unique indexes the start-up code creates.

Every operation reports failure as a result that carries one error. Each error
message is a constructor of `Results.Error`, and `Results.Message` gives its
text.

Modules, one per file:

| module | file | models |
|---|---|---|
| `Results` | results.dfy | `Result`, `Option` (null), and the error catalogue |
| `SystemTypes` | system_types.dfy | `DateTime` as ticks plus a kind; `string.IsNullOrWhiteSpace` and `IsNullOrEmpty` |
| `Enums` | enums.dfy | `OrderStatus`, `EventType`, `OriginChannel` |
| `BuyerEntity`, `ProductEntity`, `EventEntity` | buyer.dfy, product.dfy, event.dfy | the value objects and their `Create` guard chains |
| `OrderEntity` | order.dfy | `Order.Create`; the transition table; the `Order` class whose `Update` mutates `Status` and `UpdatedOn` in place |
| `SearchOrderFilters` | search_order_filters.dfy | `GetExpression` as a predicate, and as a set of clauses |
| `Dtos` | dtos.dfy | request and response shapes; the order and event mappings |
| `Repositories` | repositories.dfy | the three collections as a `State`; each repository call as a function of it; the `Store` object that the services update |
| `EventsServices` | events_service.dfy | `RegisterEvent` as a pure pipeline `Register`, plus the `EventsService` class whose method is proved equal to it |
| `OrdersServices` | orders_service.dfy | `CreateOrder`, `GetOrder` and `SearchOrders`, the same way |
| `Scenarios` | scenario.dfy | the functional tests' requests chained on an empty store: create, pay, read, search, retry |

Modelling conventions:

- A C# `null` is `None`. `decimal` is an exact `real`.
- `DateTime.UtcNow` is a `now` parameter. `DateTime.ToUniversalTime` is a
  function parameter.
- An exception raised by the storage driver is a boolean fault flag on the call.
- A lookup that finds nothing returns `Ok(None)`, as the driver returns
  `Success(null)`. A service that then dereferences that value yields
  `Err(NullReferenceThrown)`. Nothing in the source handles it.
- Every service pipeline returns three things: its result, the new state, and
  the list of writing repository calls it made, in order (`Write`).

Where the code and the design description of this system disagree, the model
follows the code:

- **Retrying an event that was already applied is refused.** The design
  describes such a retry as an idempotent success. In the code, the transition
  check (`EventsService.cs:22-25`) runs before the duplicate-key check on the
  event save. A retry therefore fails with `InvalidEventType`, or with
  `NextStatusUnavailable` from a terminal status. A bare success comes back
  only when the first attempt stored the event but then failed to save the
  order. That retry leaves the order's status behind for good.
- **Event ids are unique per order, not globally.** The event index is unique
  on (EventId, OrderId) (`Infrastructure/DependencyInjection.cs:67-74`). The
  design says EventId is globally unique.
- **A searched order with no event lists a single null event.** The design
  attaches the latest event to a search entry only if there is one. In the
  code (`OrdersService.cs:88-91`), an order with no event gets
  `Events = [null]`, because the mapping of a null event is null. A failed
  lookup gives an empty list. `SearchEntryHasLatestEvent` states all three
  cases.

## Model

| member | source | states |
|---|---|---|
| BuyerEntity.Create | src/FravegaChallenge.Domain/Entities/Buyer.cs:25-46 | accepted iff none of first name, last name, document number or phone is null or white space; on success every field is echoed; otherwise the error of the first blank field, in that order |
| ProductEntity.Create | src/FravegaChallenge.Domain/Entities/Product.cs:27-52 | accepted iff sku, name and description are not blank, price > 0 and quantity > 0; on success every field is echoed; otherwise the error of the first failing check, in the order sku, name, description, price, quantity |
| ProductEntity.TotalOfWellFormedIsPositive | src/FravegaChallenge.Domain/Entities/Product.cs:38-51 | a non-empty list of products that `Create` can return has a positive total |
| EventEntity.Create | src/FravegaChallenge.Domain/Entities/Event.cs:33-52 | accepted iff orderId ≥ 1, the id is not blank and the user is not exactly `""`; on success every argument is echoed (the id as EventId); otherwise InvalidOrderId, then IdEmpty, then UserEmpty |
| EventEntity.UserCheckIsOnlyEmptiness | src/FravegaChallenge.Domain/Entities/Event.cs:38-42 | a null user and a white-space user are both accepted, and the white-space user is kept; the same white-space string as the id is refused; only `""` is refused as the user |
| OrderEntity.Create | src/FravegaChallenge.Domain/Entities/Order.cs:55-93 | accepted iff id ≥ 1, the buyer is present, the products are present, non-empty and free of nulls, the external reference is not blank, the purchase date is UTC, and the total equals the exact sum of `Price * Quantity`; errors follow that order; on success the arguments are echoed with status Created and UpdatedOn at `now` |
| OrderEntity.CreatedTotalIsPositive | src/FravegaChallenge.Domain/Entities/Order.cs:79-89 | an order created from products that `Product.Create` accepted has a positive total value |
| OrderEntity.TableIsLifecycle | src/FravegaChallenge.Domain/Entities/Order.cs:18-23 | the transition table holds exactly the four allowed (status, event type) pairs; the statuses it has no key for are exactly the terminal Canceled and Returned |
| OrderEntity.MapFromEvent | src/FravegaChallenge.Domain/Entities/Order.cs:107-115 | an event type maps to the order status of the same name, never to Created |
| OrderEntity.NextStatus | src/FravegaChallenge.Domain/Entities/Order.cs:120-126 | the table lookup succeeds iff the pair is allowed, and then yields the status named after the event; a terminal status gives NextStatusUnavailable, any other disallowed type InvalidEventType; every success moves strictly forward in the lifecycle |
| OrderEntity.Transition | src/FravegaChallenge.Domain/Entities/Order.cs:117-136 | an update succeeds iff the event is for this order and the pair is allowed; a different order id gives MismatchId before the table is consulted; on success only the status (to the event's status) and UpdatedOn (to `now`) change |
| OrderEntity.ReplayProgress | src/FravegaChallenge.Domain/Entities/Order.cs:18-23 | over any sequence of updates, each made at its own time: the status never moves backwards; an order that has left Created never returns to it; at most three updates succeed on a new order; no field but status and UpdatedOn ever changes |
| OrderEntity.Order.constructor | src/FravegaChallenge.Domain/Entities/Order.cs:82-92 | the order object holds exactly the given content |
| OrderEntity.Order.Update | src/FravegaChallenge.Domain/Entities/Order.cs:104-137 | mutates the object in place as `Transition` says and returns the previous status; on failure returns that error and changes nothing |
| SearchOrderFilters.Matches | src/FravegaChallenge.Application/Requests/SearchOrderFilters.cs:13-23 | with no field set every order is accepted; a filter on another order id rejects the order |
| SearchOrderFilters.MatchesIsConjunctionOfClauses | src/FravegaChallenge.Application/Requests/SearchOrderFilters.cs:13-23 | the predicate accepts an order iff the order meets every clause contributed by a set field; with no field set there is no clause and every order is accepted |
| SearchOrderFilters.NarrowerFiltersAcceptLess | src/FravegaChallenge.Application/Requests/SearchOrderFilters.cs:16-22 | setting more fields adds clauses, so narrower filters accept a subset of what wider ones accept |
| SearchOrderFilters.DateBoundsAreInclusive | src/FravegaChallenge.Application/Requests/SearchOrderFilters.cs:20-21 | an order purchased exactly at the bound, after its conversion to UTC, passes both CreatedOnFrom and CreatedOnTo |
| SearchOrderFilters.DocumentNumberWildcard | src/FravegaChallenge.Application/Requests/SearchOrderFilters.cs:18 | a null or empty document number accepts every order; any other value, even white space, accepts exactly the orders whose buyer has that document number |
| Repositories.IndexOf | src/FravegaChallenge.Infrastructure/Repositories/OrdersRepository.cs:17-20 | the position of the first stored order with the id, or -1 iff there is none |
| Repositories.FetchOrder | src/FravegaChallenge.Infrastructure/Repositories/OrdersRepository.cs:13-29 | a fault gives GetAsyncGenericError; otherwise success, with null iff no stored order has the id, and else a stored order with that id |
| Repositories.Where | src/FravegaChallenge.Infrastructure/Repositories/OrdersRepository.cs:34 | the listed orders are exactly the stored orders the predicate accepts |
| Repositories.WhereCounts | src/FravegaChallenge.Infrastructure/Repositories/OrdersRepository.cs:34 | each accepted order is listed exactly as many times as it is stored, and no other order is listed |
| Repositories.WhereKeepsOrder | src/FravegaChallenge.Infrastructure/Repositories/OrdersRepository.cs:34 | the listing keeps storage order: the matches among earlier stored orders come before those among later ones |
| Repositories.WhereKeepsIdsUnique | src/FravegaChallenge.Infrastructure/DependencyInjection.cs:40-46 | when the stored orders are unique on OrderId, so are the listed ones |
| Repositories.FetchOrders | src/FravegaChallenge.Infrastructure/Repositories/OrdersRepository.cs:30-43 | a fault gives GetByFiltersAsyncGenericError; otherwise exactly the stored orders the expression accepts |
| Repositories.InsertOrder | src/FravegaChallenge.Infrastructure/Repositories/OrdersRepository.cs:45-64 | the insert succeeds iff there is no fault and no stored order has the same id or the same (ExternalReferenceId, OriginChannel); success appends the order and anything else changes nothing; a duplicate key gives DuplicatedOrderError, a fault the generic save error; the unique indexes are preserved |
| Repositories.ReplaceOrder | src/FravegaChallenge.Infrastructure/Repositories/OrdersRepository.cs:66-86 | replaces in place the stored order with the same id and inserts nothing; every failure is UpdateAsyncGenericError and changes nothing; a replacement that keeps the order's external reference always goes through; the unique indexes are preserved |
| Repositories.Latest | src/FravegaChallenge.Infrastructure/Repositories/EventsRepository.cs:34-44 | none iff the order has no stored event; otherwise a stored event of the order whose date is not earlier than that of any other of its events |
| Repositories.EventsOf | src/FravegaChallenge.Infrastructure/Repositories/EventsRepository.cs:16-19 | the listed events are the order's stored events, each exactly as many times as it is stored, and no other event |
| Repositories.EventsOfKeepsOrder | src/FravegaChallenge.Infrastructure/Repositories/EventsRepository.cs:16-19 | the order's events are listed in storage order: those stored earlier come first |
| Repositories.FetchEvents | src/FravegaChallenge.Infrastructure/Repositories/EventsRepository.cs:12-28 | a fault gives GetByOrderIdAsyncGenericError; otherwise the stored events of the order, each as many times as it is stored |
| Repositories.FetchLastEvent | src/FravegaChallenge.Infrastructure/Repositories/EventsRepository.cs:30-53 | a fault gives GetLastByOrderIdAsyncGenericError; otherwise null iff the order has no event, else its latest stored event |
| Repositories.InsertEvent | src/FravegaChallenge.Infrastructure/Repositories/EventsRepository.cs:55-74 | the insert succeeds iff there is no fault and no stored event has the same (EventId, OrderId); success appends the event and anything else changes nothing; a duplicate key gives DuplicatedId, a fault the generic save error; the unique index is preserved |
| Repositories.NextSequenceValue | src/FravegaChallenge.Infrastructure/Repositories/CountersRepository.cs:11-33 | without a fault the named counter, created at 0 when missing, goes up by one and its new value is returned; no other counter and no order or event changes; a fault changes nothing |
| Repositories.Store.GetAsync | src/FravegaChallenge.Infrastructure/Repositories/OrdersRepository.cs:13-29 | returns what `FetchOrder` says, the order as a fresh object |
| Repositories.Store.GetByFiltersAsync | src/FravegaChallenge.Infrastructure/Repositories/OrdersRepository.cs:30-43 | returns what `FetchOrders` says |
| Repositories.Store.SaveOrderAsync | src/FravegaChallenge.Infrastructure/Repositories/OrdersRepository.cs:45-64 | the store becomes what `InsertOrder` says, and the insert is recorded as a write |
| Repositories.Store.UpdateAsync | src/FravegaChallenge.Infrastructure/Repositories/OrdersRepository.cs:66-86 | the store becomes what `ReplaceOrder` says for the object's current content, and the replace is recorded as a write |
| Repositories.Store.GetByOrderIdAsync | src/FravegaChallenge.Infrastructure/Repositories/EventsRepository.cs:12-28 | returns what `FetchEvents` says |
| Repositories.Store.GetLastByOrderIdAsync | src/FravegaChallenge.Infrastructure/Repositories/EventsRepository.cs:30-53 | returns what `FetchLastEvent` says |
| Repositories.Store.SaveEventAsync | src/FravegaChallenge.Infrastructure/Repositories/EventsRepository.cs:55-74 | the store becomes what `InsertEvent` says, and the insert is recorded as a write |
| Repositories.Store.GetNextSequenceValue | src/FravegaChallenge.Infrastructure/Repositories/CountersRepository.cs:11-33 | the store becomes what `NextSequenceValue` says, and the increment is recorded as a write |
| EventsServices.Register | src/FravegaChallenge.Application/Services/EventsService.cs:11-49 | registration preserves the unique indexes; a call that writes nothing leaves the store unchanged; it never fails with MismatchId |
| EventsServices.FetchFailureWritesNothing | src/FravegaChallenge.Application/Services/EventsService.cs:13-17 | a failed order fetch returns GetAsyncGenericError, and a missing order is dereferenced; neither writes anything |
| EventsServices.NeverInvalidOrderId | src/FravegaChallenge.Application/Services/EventsService.cs:17 | when every stored order id is positive, the event built from the fetched order is never refused with InvalidOrderId |
| EventsServices.RejectedBeforeAnyWrite | src/FravegaChallenge.Application/Services/EventsService.cs:17-25 | an event-validation error, or a transition the order does not allow (NextStatusUnavailable or InvalidEventType), is returned with no write |
| EventsServices.DuplicateEventIsBareSuccess | src/FravegaChallenge.Application/Services/EventsService.cs:27-32 | an event already stored for the order gives a bare success; only the event insert was attempted and the order is not saved again |
| EventsServices.EventSaveErrorPropagated | src/FravegaChallenge.Application/Services/EventsService.cs:27-34 | any other event-save failure is returned unchanged; the order is not saved and nothing changes |
| EventsServices.OrderSaveErrorPropagated | src/FravegaChallenge.Application/Services/EventsService.cs:27-40 | when the event is new and stored but the order replace faults, the call returns UpdateAsyncGenericError; the event stays appended, the orders are unchanged, and the writes are the event insert and then the order replace |
| EventsServices.EventWrittenBeforeOrder | src/FravegaChallenge.Application/Services/EventsService.cs:27-40 | at most two writes happen, and the order replace comes only second, after the event insert; when the order save fails, the event stays stored and the orders are unchanged |
| EventsServices.SuccessfulRegistration | src/FravegaChallenge.Application/Services/EventsService.cs:22-48 | a response comes back iff the transition is allowed, the event is new and neither save faults; it carries the order id, the previous status, the new status and the new update time; the event is appended and the order is replaced in place |
| EventsServices.NoRepeatedTransition | src/FravegaChallenge.Domain/Entities/Order.cs:18-23 | no event type is allowed from the status it leads to |
| EventsServices.RetryAfterSuccessIsRefused | src/FravegaChallenge.Application/Services/EventsService.cs:22-25 | retrying a successful registration fails with InvalidEventType or NextStatusUnavailable and writes nothing |
| EventsServices.RetryAfterOrderSaveFailureLeavesOrderBehind | src/FravegaChallenge.Application/Services/EventsService.cs:27-40 | after an order-save failure, a fault-free retry answers a bare success and leaves the orders as they were before the first attempt |
| EventsServices.EventsService.RegisterEvent | src/FravegaChallenge.Application/Services/EventsService.cs:11-49 | the in-place pipeline over the order object and the store returns what `Register` says, leaves the state it says, and makes the writes it says |
| OrdersServices.CreateProducts | src/FravegaChallenge.Application/Services/OrdersService.cs:19-22 | succeeds iff every product line is valid, and then yields the products in request order; otherwise the error of the first invalid line |
| OrdersServices.AsArgument | src/FravegaChallenge.Application/Services/OrdersService.cs:36 | the validated products passed as an array with no null entry; an empty list is refused by `Order.Create` |
| OrdersServices.CreateOrderRun | src/FravegaChallenge.Application/Services/OrdersService.cs:12-52 | creation preserves the unique indexes and never touches events; a call that writes nothing leaves the store unchanged |
| OrdersServices.InvalidBuyerWritesNothing | src/FravegaChallenge.Application/Services/OrdersService.cs:14-17 | an invalid buyer returns its error whatever the product lines are, before the counter is consulted, with no write |
| OrdersServices.InvalidProductLineWritesNothing | src/FravegaChallenge.Application/Services/OrdersService.cs:19-22 | with a valid buyer, the first invalid product line returns its error before the counter is consulted, with no write |
| OrdersServices.CounterConsumedBeforeOrderChecks | src/FravegaChallenge.Application/Services/OrdersService.cs:24-39 | with a valid buyer and valid products the counter is always incremented first; a counter failure is returned unchanged; a request with no products still uses up an id before failing with ProductsEmpty |
| OrdersServices.SuccessfulCreation | src/FravegaChallenge.Application/Services/OrdersService.cs:24-51 | succeeds iff the counter, `Order.Create` and the insert all pass; the response carries the new id, Created and the creation time; the stored order echoes the request and has a positive total; the writes are the increment and then the insert |
| OrdersServices.LaterFailuresPropagated | src/FravegaChallenge.Application/Services/OrdersService.cs:29-44 | after the counter hands out an id: an `Order.Create` error is returned unchanged with only the increment written; a duplicate key returns DuplicatedOrderError and a driver fault the generic save error, both after the insert was attempted and with the orders unchanged |
| OrdersServices.CreationKeepsIdsFromCounter | src/FravegaChallenge.Application/Services/OrdersService.cs:24-44 | stored ids stay within those the counter handed out, so a DuplicatedOrderError always means another order has the same external reference and channel |
| OrdersServices.GetOrderRun | src/FravegaChallenge.Application/Services/OrdersService.cs:54-74 | an order-fetch fault gives GetAsyncGenericError; otherwise the read succeeds iff some stored order has the id, and then answers for that id |
| OrdersServices.GetOrderDegradesToNoEvents | src/FravegaChallenge.Application/Services/OrdersService.cs:54-74 | an order-fetch error is returned unchanged; the read succeeds iff the order exists, and then shows that stored order; an events-fetch error gives an empty event list, and otherwise the list holds each of the order's events once per stored copy, in storage order |
| OrdersServices.SearchOrdersRun | src/FravegaChallenge.Application/Services/OrdersService.cs:76-96 | the search fails iff the filtered fetch faults; otherwise every entry carries at most one event |
| OrdersServices.SearchListsExactlyMatches | src/FravegaChallenge.Application/Services/OrdersService.cs:76-96 | a fetch error is returned unchanged; otherwise there is one entry per order the repository lists, in its order, showing that order; every stored order the filters accept is listed and nothing else is; with the unique OrderId index no order appears twice |
| OrdersServices.SearchEntryHasLatestEvent | src/FravegaChallenge.Application/Services/OrdersService.cs:86-93 | each listed order carries no event when its lookup fails, a single null when it has no event, and otherwise exactly its latest event |
| OrdersServices.OrdersService.CreateOrder | src/FravegaChallenge.Application/Services/OrdersService.cs:12-52 | the pipeline over the store returns what `CreateOrderRun` says, leaves the state it says, and makes the writes it says |
| OrdersServices.OrdersService.GetOrder | src/FravegaChallenge.Application/Services/OrdersService.cs:54-74 | returns what `GetOrderRun` says and changes nothing |
| OrdersServices.OrdersService.SearchOrders | src/FravegaChallenge.Application/Services/OrdersService.cs:76-96 | the loop that fills each response's events one by one returns what `SearchOrdersRun` says |
| Scenarios.NotBlank | src/FravegaChallenge.Domain/Entities/Buyer.cs:27 | a string whose first character is not white space passes the blank check |
| Scenarios.SampleBuyerIsValid | tests/FravegaChallenge.API.FunctionalTests/Endpoints/V1/OrdersTests.cs:24-62 | the functional test's buyer is accepted as given |
| Scenarios.SampleProductsAreValid | tests/FravegaChallenge.API.FunctionalTests/Endpoints/V1/OrdersTests.cs:24-62 | the functional test's two product lines are accepted and total 2020 |
| Scenarios.SampleCreation | tests/FravegaChallenge.API.FunctionalTests/Endpoints/V1/OrdersTests.cs:24-78 | on an empty store the test's order gets id 1 and status Created, and it is stored |
| Scenarios.SamplePayment | tests/FravegaChallenge.API.FunctionalTests/Endpoints/V1/OrdersTests.cs:95-125 | the test's payment moves order 1 from Created to PaymentReceived, storing the event and then the order |
| Scenarios.SampleRead | tests/FravegaChallenge.API.FunctionalTests/Endpoints/V1/OrdersTests.cs:128-146 | reading order 1 shows its new status and its one event |
| Scenarios.SampleSearch | tests/FravegaChallenge.API.FunctionalTests/Endpoints/V1/OrdersTests.cs:149-170 | searching by order id 1 lists that order alone, with its latest event |
| Scenarios.SampleRetry | src/FravegaChallenge.Application/Services/EventsService.cs:22-25 | sending the same payment again is refused with InvalidEventType and writes nothing |
| Scenarios.OrderLifecycle | tests/FravegaChallenge.API.FunctionalTests/Endpoints/V1/OrdersTests.cs:24-170 | the whole walk: create, pay, read, search by id, then a retry that is refused |

## Left out

- Storage drivers, logging, cancellation tokens and async plumbing are not modelled. Each repository exception is a fault flag, and a faulting call changes nothing.
- Timeouts and crashes between the event write and the order write are not modelled. Only the driver faults the code catches are.
- The `Task.WhenAll` fan-out in `SearchOrders` is a sequential loop. Each step fills in only its own response, so the order of the lookups does not matter.
- `OrderStatus`, `EventType` and `OriginChannel` values outside their enums are not modelled. The fallback error of `MapFromEvent` is therefore unreachable. A channel is an opaque integer, compared only for equality.
- `Repositories.NextSequenceValue`: does not model the 32-bit `AsInt32` conversion of the counter, nor its overflow.
- `ProductEntity.Total`: `decimal` is an exact real, so decimal overflow and rounding are not modelled.
- `DateTime.ToUniversalTime` is an arbitrary function parameter, so time zones and daylight saving are not modelled. Dates are compared by ticks, and the store's millisecond rounding of dates is not modelled.
- `Repositories.Latest`: when two events of an order share the latest date, the store's choice is unspecified. The model takes the first stored.
- `Repositories.Where`: the store returns matching orders in its natural order. The model uses insertion order.
- Concurrent service calls are not modelled. Each call runs atomically, one at a time. So the per-order lost update is not captured: two `RegisterEvent` calls that read the same status both pass the transition check, and the last full-document replace wins. Nor are interleavings of concurrent duplicate submissions, which the store settles as first writer wins.
- A null request buyer makes the service throw before any check. A null product list throws only after the buyer check passes, since an invalid buyer's error is returned first. Request buyers and product lists are always present in the model.
- The Mapster mapping is modelled only for the fields the services fill in. Localized `ChannelTranslate` and `StatusTranslate` texts (`MappingConfig.cs:15-20`) are not modelled.
- The functional tests' test double is not modelled. `CustomWebApplicationFactory.cs:17-94` replaces every repository with a mock:
  - the counter always answers 43;
  - `GetAsync` answers one fixed Created order 1, and an error for any other id;
  - `GetByFiltersAsync` answers that same order;
  - the events lookups answer one fixed "event-001" payment.

  So in the tests the new order gets id 43, and the payment, read and search requests work on the mocked order 1, not on the order just created. The `Scenarios` module instead chains create, pay, read, search and retry itself, on the `Empty` store, where the new order gets id 1. The tests never run that chain end to end.
- The storage-assigned document ids of orders and events are not modelled.
- The counters' error text is not modelled, so `Message` has no text for it.
- A result carries exactly one error, as every path of the source produces. A multi-error list is not modelled.
- `EventsServices.Register`: the duplicate check on the event save compares error values. The source compares the first error's message text, and each distinct error has its own text.
- Request validation at the HTTP layer, endpoints, Swagger and DI wiring are outside the core.

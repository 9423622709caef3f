/** `OrdersService`: creating an order, reading one with its events, and
    searching orders with their latest event. */
module OrdersServices {
  import opened Results
  import opened SystemTypes
  import opened Enums
  import opened BuyerEntity
  import opened ProductEntity
  import opened EventEntity
  import opened OrderEntity
  import opened SearchOrderFilters
  import opened Dtos
  import opened Repositories

  /** The counter that hands out order ids. */
  const OrdersCounter: string := "orders"

  // ---------------------------------------------------------------------------
  // CreateOrder

  /** `Product.Create` applied to one product line of the request. */
  function MakeProduct(p: CreateOrderProduct): Result<Product>
  {
    ProductEntity.Create(p.sku, p.name, p.description, p.price, p.quantity)
  }

  /** The product lines validated in request order: every product when all
      are valid, otherwise the error of the first invalid line. */
  function CreateProducts(lines: seq<CreateOrderProduct>): (r: Result<seq<Product>>)
    ensures r.Ok? <==> forall i :: 0 <= i < |lines| ==> MakeProduct(lines[i]).Ok?
    ensures r.Ok? ==> |r.value| == |lines| && forall i :: 0 <= i < |lines| ==> MakeProduct(lines[i]) == Ok(r.value[i])
    ensures r.Err? ==> exists k :: && 0 <= k < |lines| && MakeProduct(lines[k]) == Err(r.error)
                                   && forall j :: 0 <= j < k ==> MakeProduct(lines[j]).Ok?
    decreases |lines|
  {
    if lines == [] then Ok([])
    else
      match MakeProduct(lines[0])
      case Err(e) => Err(e)
      case Ok(p) =>
        match CreateProducts(lines[1..])
        case Err(e) => Err(e)
        case Ok(ps) => Ok([p] + ps)
  }

  /** The validated products as the non-null array handed to `Order.Create`. */
  function AsArgument(ps: seq<Product>): (a: Option<seq<Option<Product>>>)
    ensures |ps| >= 1 ==> ProductsPresent(a) && Present(a) == ps
    ensures ps == [] ==> !ProductsPresent(a)
  {
    Some(seq(|ps|, i requires 0 <= i < |ps| => Some(ps[i])))
  }

  /** Which repository calls of one creation raise a driver exception. */
  datatype CreateOrderFaults = CreateOrderFaults(counter: bool, saveOrder: bool)

  /** What a creation returns, the state it leaves and the writing calls it
      made, in order. */
  datatype Creation = Creation(result: Result<CreateOrderResponse>, state: State, writes: seq<Write>)

  /** The `CreateOrder` pipeline: buyer, products, a new id from the counter,
      `Order.Create`, then the insert. Each failing step returns its error as
      is. */
  function CreateOrderRun(s: State, req: CreateOrderRequest, now: int, faults: CreateOrderFaults): (r: Creation)
    ensures Consistent(s) ==> Consistent(r.state)
    ensures r.state.events == s.events
    ensures r.writes == [] ==> r.state == s
  {
    var b := req.buyer;
    match BuyerEntity.Create(b.firstName, b.lastName, b.documentNumber, b.phone)
    case Err(e) => Creation(Err(e), s, [])
    case Ok(buyer) =>
      match CreateProducts(req.products)
      case Err(e) => Creation(Err(e), s, [])
      case Ok(products) =>
        var next := NextSequenceValue(s, OrdersCounter, faults.counter);
        var w := [CounterIncrement(OrdersCounter)];
        match next.result
        case Err(e) => Creation(Err(e), next.state, w)
        case Ok(id) =>
          match OrderEntity.Create(id, req.externalReferenceId, req.channel, req.purchaseDate, req.totalValue,
                                   Some(buyer), AsArgument(products), now)
          case Err(e) => Creation(Err(e), next.state, w)
          case Ok(order) =>
            var saved := InsertOrder(next.state, order, faults.saveOrder);
            var w' := w + [OrderInsert(order.orderId)];
            if saved.result.Fail? then Creation(Err(saved.result.error), saved.state, w')
            else Creation(Ok(CreateOrderResponse(order.orderId, order.status, order.updatedOn)), saved.state, w')
  }

  /** The buyer of a request as `Buyer.Create` judges it. */
  function RequestBuyer(req: CreateOrderRequest): Result<Buyer>
  {
    BuyerEntity.Create(req.buyer.firstName, req.buyer.lastName, req.buyer.documentNumber, req.buyer.phone)
  }

  /** An invalid buyer is reported first, whatever the product lines are, and
      before the counter is consulted: nothing is written. */
  lemma InvalidBuyerWritesNothing(s: State, req: CreateOrderRequest, now: int, faults: CreateOrderFaults)
    requires RequestBuyer(req).Err?
    ensures CreateOrderRun(s, req, now, faults) == Creation(Err(RequestBuyer(req).error), s, [])
  {
  }

  /** With a valid buyer, the first invalid product line is reported before
      the counter is consulted: nothing is written. */
  lemma InvalidProductLineWritesNothing(s: State, req: CreateOrderRequest, now: int, faults: CreateOrderFaults, k: int)
    requires RequestBuyer(req).Ok?
    requires 0 <= k < |req.products| && MakeProduct(req.products[k]).Err?
    requires forall j :: 0 <= j < k ==> MakeProduct(req.products[j]).Ok?
    ensures CreateOrderRun(s, req, now, faults) == Creation(Err(MakeProduct(req.products[k]).error), s, [])
  {
    var c := CreateProducts(req.products);
    assert c.Err?;
    var k' :| && 0 <= k' < |req.products| && MakeProduct(req.products[k']) == Err(c.error)
              && forall j :: 0 <= j < k' ==> MakeProduct(req.products[j]).Ok?;
    assert k' == k;
  }

  /** Once buyer and products are valid the counter is consulted, so a request
      that `Order.Create` then refuses, such as one with no products at all,
      still uses up an id; a counter failure is returned as is. */
  lemma CounterConsumedBeforeOrderChecks(s: State, req: CreateOrderRequest, now: int, faults: CreateOrderFaults)
    requires RequestBuyer(req).Ok? && CreateProducts(req.products).Ok?
    ensures var r := CreateOrderRun(s, req, now, faults);
            && (faults.counter ==> r == Creation(Err(GetNextSequenceValueGenericError), s, [CounterIncrement(OrdersCounter)]))
            && (!faults.counter ==> && r.writes[0] == CounterIncrement(OrdersCounter)
                                    && CounterValue(r.state, OrdersCounter) == CounterValue(s, OrdersCounter) + 1)
            && (!faults.counter && req.products == [] && CounterValue(s, OrdersCounter) >= 0 ==>
                  r == Creation(Err(ProductsEmpty), NextSequenceValue(s, OrdersCounter, false).state,
                                [CounterIncrement(OrdersCounter)]))
  {
  }

  /** A creation succeeds exactly when every step passes; it answers the new
      id, the status Created and the creation time, and stores an order that
      echoes the request and whose total is positive. */
  lemma SuccessfulCreation(s: State, req: CreateOrderRequest, now: int, faults: CreateOrderFaults)
    requires RequestBuyer(req).Ok? && CreateProducts(req.products).Ok?
    ensures var r := CreateOrderRun(s, req, now, faults);
            var id := CounterValue(s, OrdersCounter) + 1;
            var products := CreateProducts(req.products).value;
            var created := OrderEntity.Create(id, req.externalReferenceId, req.channel, req.purchaseDate,
                                              req.totalValue, Some(RequestBuyer(req).value), AsArgument(products), now);
            && (r.result.Ok? <==>
                  !faults.counter && created.Ok? && !faults.saveOrder && !CollidesWithStored(s.orders, created.value))
            && (r.result.Ok? ==>
                  && created.Ok?
                  && created.value == OrderDocument(id, req.externalReferenceId.value, req.channel, req.purchaseDate,
                                                    req.totalValue, RequestBuyer(req).value, products,
                                                    OrderStatus.Created, UtcAt(now))
                  && r.result.value == CreateOrderResponse(id, OrderStatus.Created, UtcAt(now))
                  && r.state.orders == s.orders + [created.value]
                  && created.value.totalValue == Total(products) > 0.0
                  && r.writes == [CounterIncrement(OrdersCounter), OrderInsert(id)])
  {
    var products := CreateProducts(req.products).value;
    var r := CreateOrderRun(s, req, now, faults);
    if r.result.Ok? {
      assert |products| >= 1;
      assert forall i :: 0 <= i < |products| ==> ProductEntity.WellFormed(products[i]) by {
        forall i | 0 <= i < |products| ensures ProductEntity.WellFormed(products[i]) {
          assert MakeProduct(req.products[i]) == Ok(products[i]);
        }
      }
      TotalOfWellFormedIsPositive(products);
    }
  }

  /** Once the counter has handed out an id, an `Order.Create` refusal and
      each save failure are returned unchanged: a refused order leaves only
      the counter increment behind, a duplicate (ExternalReferenceId,
      OriginChannel) or id is reported as DuplicatedOrderError, and a driver
      fault on the insert as the generic save error. */
  lemma LaterFailuresPropagated(s: State, req: CreateOrderRequest, now: int, faults: CreateOrderFaults)
    requires RequestBuyer(req).Ok? && CreateProducts(req.products).Ok?
    requires !faults.counter
    ensures var r := CreateOrderRun(s, req, now, faults);
            var next := NextSequenceValue(s, OrdersCounter, false);
            var created := OrderEntity.Create(CounterValue(s, OrdersCounter) + 1, req.externalReferenceId,
                                              req.channel, req.purchaseDate, req.totalValue,
                                              Some(RequestBuyer(req).value),
                                              AsArgument(CreateProducts(req.products).value), now);
            && (created.Err? ==> r == Creation(Err(created.error), next.state, [CounterIncrement(OrdersCounter)]))
            && (created.Ok? && faults.saveOrder ==>
                  r == Creation(Err(OrdersSaveAsyncGenericError), next.state,
                                [CounterIncrement(OrdersCounter), OrderInsert(created.value.orderId)]))
            && (created.Ok? && !faults.saveOrder && CollidesWithStored(s.orders, created.value) ==>
                  r == Creation(Err(DuplicatedOrderError), next.state,
                                [CounterIncrement(OrdersCounter), OrderInsert(created.value.orderId)]))
  {
  }

  /** The ids stored so far were all handed out by the orders counter. */
  predicate IdsFromCounter(s: State)
  {
    forall i :: 0 <= i < |s.orders| ==> 1 <= s.orders[i].orderId <= CounterValue(s, OrdersCounter)
  }

  /** Creating orders keeps every stored id among those the counter handed out,
      so a new order never collides on its id: a duplicate-key refusal always
      means another order has the same external reference and channel. */
  lemma CreationKeepsIdsFromCounter(s: State, req: CreateOrderRequest, now: int, faults: CreateOrderFaults)
    requires IdsFromCounter(s)
    ensures IdsFromCounter(CreateOrderRun(s, req, now, faults).state)
    ensures CreateOrderRun(s, req, now, faults).result == Err(DuplicatedOrderError) ==>
              exists i :: && 0 <= i < |s.orders|
                          && Some(s.orders[i].externalReferenceId) == req.externalReferenceId
                          && s.orders[i].originChannel == req.channel
  {
    var r := CreateOrderRun(s, req, now, faults);
    if r.result == Err(DuplicatedOrderError) {
      var id := CounterValue(s, OrdersCounter) + 1;
      var order := OrderEntity.Create(id, req.externalReferenceId, req.channel, req.purchaseDate, req.totalValue,
                                      Some(RequestBuyer(req).value), AsArgument(CreateProducts(req.products).value), now).value;
      var next := NextSequenceValue(s, OrdersCounter, false);
      assert CollidesWithStored(next.state.orders, order);
      var i :| 0 <= i < |s.orders| && (s.orders[i].orderId == order.orderId || SameReference(s.orders[i], order));
      assert s.orders[i].orderId < order.orderId;
    }
  }

  // ---------------------------------------------------------------------------
  // GetOrder

  /** Which repository calls of one read raise a driver exception. */
  datatype GetOrderFaults = GetOrderFaults(getOrder: bool, getEvents: bool)

  /** `GetOrder`: the order as a response, with all its events, or with no
      events when they cannot be read. A missing order is dereferenced. */
  function GetOrderRun(s: State, orderId: int, faults: GetOrderFaults): (r: Result<GetOrderResponse>)
    ensures faults.getOrder ==> r == Err(GetAsyncGenericError)
    ensures !faults.getOrder ==> (r.Ok? <==> exists i :: 0 <= i < |s.orders| && s.orders[i].orderId == orderId)
    ensures r.Ok? ==> r.value.orderId == orderId
  {
    match FetchOrder(s, orderId, faults.getOrder)
    case Err(e) => Err(e)
    case Ok(None) => Err(NullReferenceThrown)
    case Ok(Some(d)) =>
      var events := FetchEvents(s, orderId, faults.getEvents);
      Ok(OrderView(d).(events := if events.Ok? then EventViews(events.value) else []))
  }

  /** An order-fetch error is returned as is; an events-fetch error still
      answers the order, with an empty event list; otherwise the list holds
      exactly the order's stored events. */
  lemma GetOrderDegradesToNoEvents(s: State, orderId: int, faults: GetOrderFaults)
    ensures var r := GetOrderRun(s, orderId, faults);
            && (faults.getOrder ==> r == Err(GetAsyncGenericError))
            && (!faults.getOrder ==> (r.Ok? <==> exists i :: 0 <= i < |s.orders| && s.orders[i].orderId == orderId))
            && (r.Ok? ==> && r.value.orderId == orderId
                          && (exists d :: d in s.orders && r.value == OrderView(d).(events := r.value.events))
                          && (faults.getEvents ==> r.value.events == [])
                          && (!faults.getEvents ==>
                                forall v :: v in r.value.events <==>
                                  exists e :: e in s.events && e.orderId == orderId && v == Some(EventView(e)))
                          // each of the order's events once, in storage order
                          && (!faults.getEvents ==>
                                var es := EventsOf(s.events, orderId);
                                && |r.value.events| == |es|
                                && forall i :: 0 <= i < |es| ==> r.value.events[i] == Some(EventView(es[i]))))
  {
    var r := GetOrderRun(s, orderId, faults);
    if r.Ok? && !faults.getEvents {
      var es := EventsOf(s.events, orderId);
      forall v ensures v in r.value.events <==> exists e :: e in s.events && e.orderId == orderId && v == Some(EventView(e)) {
        if v in r.value.events {
          var i :| 0 <= i < |es| && r.value.events[i] == v;
          assert es[i] in es;
        }
        if exists e :: e in s.events && e.orderId == orderId && v == Some(EventView(e)) {
          var e :| e in s.events && e.orderId == orderId && v == Some(EventView(e));
          assert e in es;
          var i :| 0 <= i < |es| && es[i] == e;
          assert r.value.events[i] == v;
        }
      }
    }
  }

  // ---------------------------------------------------------------------------
  // SearchOrders

  /** Which repository calls of one search raise a driver exception: the
      filtered fetch, and the latest-event lookup of the listed order ids. */
  datatype SearchFaults = SearchFaults(getByFilters: bool, failingLookups: set<int>)

  /** The events a listed order ends up with: none when its lookup fails, the
      driver's null when it has no event, else its latest event. */
  function LatestEventEntry(s: State, orderId: int, fault: bool): seq<Option<GetOrderEvent>>
  {
    match FetchLastEvent(s, orderId, fault)
    case Err(_) => []
    case Ok(None) => [None]
    case Ok(Some(e)) => [Some(EventView(e))]
  }

  /** `SearchOrders`: one response per matching order, in the order the
      repository lists them, each carrying its latest-event entry. */
  function SearchOrdersRun(s: State, filters: Filters, toUniversalTime: DateTime -> DateTime,
                           faults: SearchFaults): (r: Result<seq<GetOrderResponse>>)
    ensures r.Err? <==> faults.getByFilters
    ensures r.Ok? ==> forall i :: 0 <= i < |r.value| ==> |r.value[i].events| <= 1
  {
    match FetchOrders(s, Expression(filters, toUniversalTime), faults.getByFilters)
    case Err(e) => Err(e)
    case Ok(orders) =>
      Ok(seq(|orders|, i requires 0 <= i < |orders| =>
               OrderView(orders[i]).(events := LatestEventEntry(s, orders[i].orderId,
                                                                orders[i].orderId in faults.failingLookups))))
  }

  /** The response shows, apart from its events, a stored order the filters
      accept. */
  predicate ShowsStoredMatch(s: State, filters: Filters, toUniversalTime: DateTime -> DateTime, v: GetOrderResponse)
  {
    exists o :: o in s.orders && Matches(filters, o, toUniversalTime) && v == OrderView(o).(events := v.events)
  }

  /** A failed filtered fetch is returned as is; otherwise the search lists
      exactly the stored orders the filters accept. */
  lemma SearchListsExactlyMatches(s: State, filters: Filters, toUniversalTime: DateTime -> DateTime, faults: SearchFaults)
    ensures var r := SearchOrdersRun(s, filters, toUniversalTime, faults);
            && (faults.getByFilters ==> r == Err(GetByFiltersAsyncGenericError))
            && (!faults.getByFilters ==>
                  && r.Ok?
                  && (forall o :: o in s.orders && Matches(filters, o, toUniversalTime) ==>
                        exists i :: 0 <= i < |r.value| && r.value[i] == OrderView(o).(events := r.value[i].events))
                  && (forall i :: 0 <= i < |r.value| ==> ShowsStoredMatch(s, filters, toUniversalTime, r.value[i]))
                  // one entry per match, in the order the repository lists the matches
                  && (var matches := Where(s.orders, Expression(filters, toUniversalTime));
                      && |r.value| == |matches|
                      && forall i :: 0 <= i < |matches| ==>
                           r.value[i] == OrderView(matches[i]).(events := r.value[i].events))
                  // with the stored unique index on OrderId, no order is listed twice
                  && (Consistent(s) ==> forall i, j :: 0 <= i < j < |r.value| ==> r.value[i].orderId != r.value[j].orderId))
  {
    if !faults.getByFilters {
      var orders := FetchOrders(s, Expression(filters, toUniversalTime), false).value;
      var r := SearchOrdersRun(s, filters, toUniversalTime, faults);
      forall o | o in s.orders && Matches(filters, o, toUniversalTime)
        ensures exists i :: 0 <= i < |r.value| && r.value[i] == OrderView(o).(events := r.value[i].events)
      {
        assert Expression(filters, toUniversalTime)(o);
        var i :| 0 <= i < |orders| && orders[i] == o;
        assert r.value[i] == OrderView(o).(events := r.value[i].events);
      }
      forall i | 0 <= i < |r.value|
        ensures ShowsStoredMatch(s, filters, toUniversalTime, r.value[i])
      {
        assert orders[i] in orders;
        assert orders[i] in s.orders && Expression(filters, toUniversalTime)(orders[i]);
        assert Matches(filters, orders[i], toUniversalTime);
        assert r.value[i] == OrderView(orders[i]).(events := r.value[i].events);
      }
      if Consistent(s) {
        assert UniqueIds(s.orders);
        WhereKeepsIdsUnique(s.orders, Expression(filters, toUniversalTime));
        assert forall i :: 0 <= i < |r.value| ==> r.value[i].orderId == orders[i].orderId;
      }
    }
  }

  /** Each listed order carries no event when its lookup failed, a single
      null when it has no event, and otherwise exactly its latest event. */
  lemma SearchEntryHasLatestEvent(s: State, filters: Filters, toUniversalTime: DateTime -> DateTime,
                                  faults: SearchFaults, i: int)
    requires SearchOrdersRun(s, filters, toUniversalTime, faults).Ok?
    requires 0 <= i < |SearchOrdersRun(s, filters, toUniversalTime, faults).value|
    ensures var v := SearchOrdersRun(s, filters, toUniversalTime, faults).value[i];
            && (v.orderId in faults.failingLookups ==> v.events == [])
            && (v.orderId !in faults.failingLookups && (forall e :: e in s.events ==> e.orderId != v.orderId)
                ==> v.events == [None])
            && (v.orderId !in faults.failingLookups && (exists e :: e in s.events && e.orderId == v.orderId)
                ==> exists e :: && e in s.events && e.orderId == v.orderId && v.events == [Some(EventView(e))]
                                && forall e' :: e' in s.events && e'.orderId == v.orderId ==> e'.date.ticks <= e.date.ticks)
  {
    var v := SearchOrdersRun(s, filters, toUniversalTime, faults).value[i];
    var last := FetchLastEvent(s, v.orderId, v.orderId in faults.failingLookups);
    if last.Ok? && last.value.Some? {
      assert v.events == [Some(EventView(last.value.value))];
    }
  }

  // ---------------------------------------------------------------------------
  // The service

  class OrdersService {
    const store: Store

    constructor (store: Store)
      ensures this.store == store
    {
      this.store := store;
    }

    /** `CreateOrder`. */
    method CreateOrder(req: CreateOrderRequest, now: int, faults: CreateOrderFaults)
      returns (r: Result<CreateOrderResponse>)
      modifies store
      ensures var run := CreateOrderRun(old(store.Stored()), req, now, faults);
              && r == run.result && store.Stored() == run.state
              && store.writes == old(store.writes) + run.writes
    {
      var buyer := BuyerEntity.Create(req.buyer.firstName, req.buyer.lastName, req.buyer.documentNumber, req.buyer.phone);
      if buyer.Err? {
        return Err(buyer.error);
      }
      var products := CreateProducts(req.products);
      if products.Err? {
        return Err(products.error);
      }
      var newIdResult := store.GetNextSequenceValue(OrdersCounter, faults.counter);
      if newIdResult.Err? {
        return Err(newIdResult.error);
      }
      var order := OrderEntity.Create(newIdResult.value, req.externalReferenceId, req.channel, req.purchaseDate,
                                      req.totalValue, Some(buyer.value), AsArgument(products.value), now);
      if order.Err? {
        return Err(order.error);
      }
      var result := store.SaveOrderAsync(order.value, faults.saveOrder);
      if result.Fail? {
        return Err(result.error);
      }
      return Ok(CreateOrderResponse(order.value.orderId, order.value.status, order.value.updatedOn));
    }

    /** `GetOrder`: the response's event list is filled in after mapping. */
    method GetOrder(orderId: int, faults: GetOrderFaults) returns (r: Result<GetOrderResponse>)
      ensures r == GetOrderRun(store.Stored(), orderId, faults)
    {
      var orderResult := store.GetAsync(orderId, faults.getOrder);
      if orderResult.Err? {
        return Err(orderResult.error);
      }
      var eventsResult := store.GetByOrderIdAsync(orderId, faults.getEvents);
      var eventsResponse: Option<seq<Option<GetOrderEvent>>> := None;
      if eventsResult.Ok? {
        eventsResponse := Some(EventViews(eventsResult.value));
      }
      if orderResult.value.None? {
        // the source maps, then dereferences, the missing order
        return Err(NullReferenceThrown);
      }
      var response := OrderView(orderResult.value.value.Document());
      response := response.(events := if eventsResponse.Some? then eventsResponse.value else []);
      return Ok(response);
    }

    /** `SearchOrders`: the per-order latest-event lookups, which the source
        runs concurrently, are run one after the other; each fills in only its
        own response. */
    method SearchOrders(filters: Filters, toUniversalTime: DateTime -> DateTime, faults: SearchFaults)
      returns (r: Result<seq<GetOrderResponse>>)
      ensures r == SearchOrdersRun(store.Stored(), filters, toUniversalTime, faults)
    {
      var ordersResult := store.GetByFiltersAsync(Expression(filters, toUniversalTime), faults.getByFilters);
      if ordersResult.Err? {
        return Err(ordersResult.error);
      }
      var orders := ordersResult.value;
      var response := new GetOrderResponse[|orders|](i requires 0 <= i < |orders| => OrderView(orders[i]));
      var i := 0;
      while i < |orders|
        invariant 0 <= i <= |orders|
        invariant forall k :: 0 <= k < i ==>
                    response[k] == OrderView(orders[k]).(events := LatestEventEntry(store.Stored(), orders[k].orderId,
                                                                                   orders[k].orderId in faults.failingLookups))
        invariant forall k :: i <= k < |orders| ==> response[k] == OrderView(orders[k])
      {
        var id := response[i].orderId;
        var last := store.GetLastByOrderIdAsync(id, id in faults.failingLookups);
        if last.Ok? {
          response[i] := response[i].(events := [if last.value.Some? then Some(EventView(last.value.value)) else None]);
        }
        i := i + 1;
      }
      ghost var expected := SearchOrdersRun(store.Stored(), filters, toUniversalTime, faults);
      assert expected.Ok? && |expected.value| == |orders|;
      assert forall k :: 0 <= k < |orders| ==> response[..][k] == expected.value[k];
      assert response[..] == expected.value;
      return Ok(response[..]);
    }
  }
}

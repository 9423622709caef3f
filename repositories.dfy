/** The storage the services rely on: the orders, events and counters
    collections with their unique indexes, held in memory. Each repository call
    is a function of the stored state plus a `fault` flag standing for an
    exception raised by the storage driver; the `Store` object is the state the
    services update through those calls. */
module Repositories {
  import opened Results
  import opened SystemTypes
  import opened Enums
  import opened EventEntity
  import opened OrderEntity

  /** The three collections: orders and events in storage order, and the named
      sequence counters. */
  datatype State = State(orders: seq<OrderDocument>, events: seq<Event>, counters: map<string, int>)

  /** A call that writes to storage, recorded whether or not it succeeds. */
  datatype Write =
    | CounterIncrement(name: string)
    | OrderInsert(orderId: int)
    | OrderReplace(orderId: int)
    | EventInsert(eventId: string, eventOrderId: int)

  /** The reply to a write together with the state it leaves behind. */
  datatype Run<T> = Run(result: T, state: State)

  /** Two orders collide on the (ExternalReferenceId, OriginChannel) index. */
  predicate SameReference(a: OrderDocument, b: OrderDocument)
  {
    a.externalReferenceId == b.externalReferenceId && a.originChannel == b.originChannel
  }

  /** Two events collide on the (EventId, OrderId) index. */
  predicate SameEvent(a: Event, b: Event)
  {
    a.eventId == b.eventId && a.orderId == b.orderId
  }

  /** The unique indexes created at start-up hold: orders are unique on
      OrderId and on (ExternalReferenceId, OriginChannel), events on
      (EventId, OrderId). */
  predicate Consistent(s: State)
  {
    && (forall i, j :: 0 <= i < j < |s.orders| ==>
          s.orders[i].orderId != s.orders[j].orderId && !SameReference(s.orders[i], s.orders[j]))
    && (forall i, j :: 0 <= i < j < |s.events| ==> !SameEvent(s.events[i], s.events[j]))
  }

  // ---------------------------------------------------------------------------
  // Orders

  /** The position of the first stored order with the given id, or -1. */
  function IndexOf(orders: seq<OrderDocument>, id: int): (k: int)
    ensures -1 <= k < |orders|
    ensures k == -1 <==> forall i :: 0 <= i < |orders| ==> orders[i].orderId != id
    ensures k >= 0 ==> orders[k].orderId == id && forall i :: 0 <= i < k ==> orders[i].orderId != id
    decreases |orders|
  {
    if orders == [] then -1
    else if orders[0].orderId == id then 0
    else
      var k := IndexOf(orders[1..], id);
      if k == -1 then -1 else k + 1
  }

  /** `OrdersRepository.GetAsync`: the order with the given id, `None` when
      there is none (the driver's null). */
  function FetchOrder(s: State, id: int, fault: bool): (r: Result<Option<OrderDocument>>)
    ensures fault ==> r == Err(GetAsyncGenericError)
    ensures !fault ==> r.Ok? && (r.value.None? <==> forall i :: 0 <= i < |s.orders| ==> s.orders[i].orderId != id)
    ensures !fault && r.value.Some? ==> r.value.value in s.orders && r.value.value.orderId == id
  {
    if fault then Err(GetAsyncGenericError)
    else
      var k := IndexOf(s.orders, id);
      if k == -1 then Ok(None) else Ok(Some(s.orders[k]))
  }

  /** The stored orders a predicate accepts, in storage order. */
  function Where(orders: seq<OrderDocument>, p: OrderDocument -> bool): (r: seq<OrderDocument>)
    ensures |r| <= |orders|
    ensures forall o :: o in r <==> o in orders && p(o)
    decreases |orders|
  {
    if orders == [] then []
    else (if p(orders[0]) then [orders[0]] else []) + Where(orders[1..], p)
  }

  /** Each accepted order is listed as many times as it is stored, and no
      other order is listed. */
  lemma {:induction false} WhereCounts(orders: seq<OrderDocument>, p: OrderDocument -> bool)
    ensures forall o :: multiset(Where(orders, p))[o] == if p(o) then multiset(orders)[o] else 0
    decreases |orders|
  {
    if orders != [] {
      assert orders == [orders[0]] + orders[1..];
      WhereCounts(orders[1..], p);
    }
  }

  /** The listing keeps storage order: what a predicate accepts from a
      prefix comes before what it accepts from the rest. */
  lemma {:induction false} WhereKeepsOrder(a: seq<OrderDocument>, b: seq<OrderDocument>, p: OrderDocument -> bool)
    ensures Where(a + b, p) == Where(a, p) + Where(b, p)
    decreases |a|
  {
    if a == [] {
      assert a + b == b;
    } else {
      assert (a + b)[1..] == a[1..] + b;
      WhereKeepsOrder(a[1..], b, p);
      calc {
        Where(a + b, p);
        (if p(a[0]) then [a[0]] else []) + Where(a[1..] + b, p);
        (if p(a[0]) then [a[0]] else []) + (Where(a[1..], p) + Where(b, p));
        ((if p(a[0]) then [a[0]] else []) + Where(a[1..], p)) + Where(b, p);
      }
    }
  }

  /** No two of the orders share an OrderId. */
  predicate UniqueIds(orders: seq<OrderDocument>)
  {
    forall i, j :: 0 <= i < j < |orders| ==> orders[i].orderId != orders[j].orderId
  }

  /** Orders unique on OrderId are listed with unique OrderIds. */
  lemma {:induction false} WhereKeepsIdsUnique(orders: seq<OrderDocument>, p: OrderDocument -> bool)
    requires UniqueIds(orders)
    ensures UniqueIds(Where(orders, p))
    decreases |orders|
  {
    if orders != [] {
      var rest := Where(orders[1..], p);
      WhereKeepsIdsUnique(orders[1..], p);
      var r := Where(orders, p);
      if p(orders[0]) {
        assert r == [orders[0]] + rest;
        forall i, j | 0 <= i < j < |r| ensures r[i].orderId != r[j].orderId {
          if i == 0 {
            var o := rest[j - 1];
            assert o in rest;
            var k :| 0 <= k < |orders[1..]| && orders[1..][k] == o;
            assert orders[k + 1] == o;
          } else {
            assert r[i] == rest[i - 1] && r[j] == rest[j - 1];
          }
        }
      } else {
        assert r == rest;
      }
    }
  }

  /** `OrdersRepository.GetByFiltersAsync`: every stored order the expression
      accepts. */
  function FetchOrders(s: State, expression: OrderDocument -> bool, fault: bool): (r: Result<seq<OrderDocument>>)
    ensures fault ==> r == Err(GetByFiltersAsyncGenericError)
    ensures !fault ==> r.Ok? && forall o :: o in r.value <==> o in s.orders && expression(o)
  {
    if fault then Err(GetByFiltersAsyncGenericError) else Ok(Where(s.orders, expression))
  }

  /** Inserting the order would break one of the two unique indexes. */
  predicate CollidesWithStored(orders: seq<OrderDocument>, d: OrderDocument)
  {
    exists i :: 0 <= i < |orders| && (orders[i].orderId == d.orderId || SameReference(orders[i], d))
  }

  /** `OrdersRepository.SaveAsync`: an insert; a duplicate key is reported as
      `DuplicatedOrderError`, any other failure as the generic save error. */
  function InsertOrder(s: State, d: OrderDocument, fault: bool): (r: Run<Outcome>)
    ensures r.result == Pass <==> !fault && !CollidesWithStored(s.orders, d)
    ensures r.result == Pass ==> r.state == s.(orders := s.orders + [d])
    ensures r.result != Pass ==> r.state == s
    ensures fault ==> r.result == Fail(OrdersSaveAsyncGenericError)
    ensures !fault && CollidesWithStored(s.orders, d) ==> r.result == Fail(DuplicatedOrderError)
    ensures Consistent(s) ==> Consistent(r.state)
  {
    if fault then Run(Fail(OrdersSaveAsyncGenericError), s)
    else if CollidesWithStored(s.orders, d) then Run(Fail(DuplicatedOrderError), s)
    else Run(Pass, s.(orders := s.orders + [d]))
  }

  /** Replacing the order at position `k` would make it collide with another
      stored order on (ExternalReferenceId, OriginChannel). */
  predicate ReferenceTakenByOther(orders: seq<OrderDocument>, k: int, d: OrderDocument)
  {
    exists j :: 0 <= j < |orders| && j != k && SameReference(orders[j], d)
  }

  /** `OrdersRepository.UpdateAsync`: replaces the stored order with the same
      id and does not insert one when there is none. A replacement breaking a
      unique index fails like any other driver error. */
  function ReplaceOrder(s: State, d: OrderDocument, fault: bool): (r: Run<Outcome>)
    ensures r.state.events == s.events && r.state.counters == s.counters
    ensures fault ==> r == Run(Fail(UpdateAsyncGenericError), s)
    ensures r.result != Pass ==> r.state == s && r.result == Fail(UpdateAsyncGenericError)
    // an update of the order's status and time only always goes through
    ensures (!fault && Consistent(s)
             && forall i :: 0 <= i < |s.orders| && s.orders[i].orderId == d.orderId ==> SameReference(s.orders[i], d))
            ==> r.result == Pass
    // the stored order with that id, if any, is replaced in place; nothing is inserted
    ensures r.result == Pass && Consistent(s) ==>
              && |r.state.orders| == |s.orders|
              && forall i :: 0 <= i < |s.orders| ==>
                   r.state.orders[i] == (if s.orders[i].orderId == d.orderId then d else s.orders[i])
    ensures Consistent(s) ==> Consistent(r.state)
  {
    var k := IndexOf(s.orders, d.orderId);
    if fault then Run(Fail(UpdateAsyncGenericError), s)
    else if k == -1 then Run(Pass, s)
    else if ReferenceTakenByOther(s.orders, k, d) then Run(Fail(UpdateAsyncGenericError), s)
    else Run(Pass, s.(orders := s.orders[k := d]))
  }

  // ---------------------------------------------------------------------------
  // Events

  /** The stored events of an order, in storage order. */
  function EventsOf(events: seq<Event>, orderId: int): (r: seq<Event>)
    ensures |r| <= |events|
    ensures forall e :: e in r <==> e in events && e.orderId == orderId
    // each event of the order is listed as many times as it is stored, and no other is
    ensures forall e :: multiset(r)[e] == if e.orderId == orderId then multiset(events)[e] else 0
    decreases |events|
  {
    if events == [] then []
    else
      assert events == [events[0]] + events[1..];
      (if events[0].orderId == orderId then [events[0]] else []) + EventsOf(events[1..], orderId)
  }

  /** The events of an order keep storage order: those stored earlier are
      listed first. */
  lemma {:induction false} EventsOfKeepsOrder(a: seq<Event>, b: seq<Event>, orderId: int)
    ensures EventsOf(a + b, orderId) == EventsOf(a, orderId) + EventsOf(b, orderId)
    decreases |a|
  {
    if a == [] {
      assert a + b == b;
    } else {
      assert (a + b)[0] == a[0];
      assert (a + b)[1..] == a[1..] + b;
      EventsOfKeepsOrder(a[1..], b, orderId);
    }
  }

  /** The event of the order with the latest date; among events with that
      same date, the first stored. */
  function Latest(events: seq<Event>, orderId: int): (r: Option<Event>)
    ensures r.None? <==> forall e :: e in events ==> e.orderId != orderId
    ensures r.Some? ==> && r.value in events && r.value.orderId == orderId
                        && forall e :: e in events && e.orderId == orderId ==> e.date.ticks <= r.value.date.ticks
    decreases |events|
  {
    if events == [] then None
    else
      var rest := Latest(events[1..], orderId);
      if events[0].orderId != orderId then rest
      else if rest.None? || rest.value.date.ticks <= events[0].date.ticks then Some(events[0])
      else rest
  }

  /** `EventsRepository.GetByOrderIdAsync`. */
  function FetchEvents(s: State, orderId: int, fault: bool): (r: Result<seq<Event>>)
    ensures fault ==> r == Err(GetByOrderIdAsyncGenericError)
    ensures !fault ==> r.Ok? && forall e :: e in r.value <==> e in s.events && e.orderId == orderId
    ensures !fault ==> forall e :: multiset(r.value)[e] == if e.orderId == orderId then multiset(s.events)[e] else 0
  {
    if fault then Err(GetByOrderIdAsyncGenericError) else Ok(EventsOf(s.events, orderId))
  }

  /** `EventsRepository.GetLastByOrderIdAsync`: the latest event, `None` (the
      driver's null) when the order has none. */
  function FetchLastEvent(s: State, orderId: int, fault: bool): (r: Result<Option<Event>>)
    ensures fault ==> r == Err(GetLastByOrderIdAsyncGenericError)
    ensures !fault ==> r.Ok? && (r.value.None? <==> forall e :: e in s.events ==> e.orderId != orderId)
    ensures !fault && r.value.Some? ==>
              && r.value.value in s.events && r.value.value.orderId == orderId
              && forall e :: e in s.events && e.orderId == orderId ==> e.date.ticks <= r.value.value.date.ticks
  {
    if fault then Err(GetLastByOrderIdAsyncGenericError) else Ok(Latest(s.events, orderId))
  }

  /** An event with the same (EventId, OrderId) is already stored. */
  predicate EventStored(events: seq<Event>, e: Event)
  {
    exists i :: 0 <= i < |events| && SameEvent(events[i], e)
  }

  /** `EventsRepository.SaveAsync`: an insert; a duplicate key is reported as
      `DuplicatedId`, any other failure as the generic save error. */
  function InsertEvent(s: State, e: Event, fault: bool): (r: Run<Outcome>)
    ensures r.result == Pass <==> !fault && !EventStored(s.events, e)
    ensures r.result == Pass ==> r.state == s.(events := s.events + [e])
    ensures r.result != Pass ==> r.state == s
    ensures fault ==> r.result == Fail(EventsSaveAsyncGenericError)
    ensures !fault && EventStored(s.events, e) ==> r.result == Fail(DuplicatedId)
    ensures Consistent(s) ==> Consistent(r.state)
  {
    if fault then Run(Fail(EventsSaveAsyncGenericError), s)
    else if EventStored(s.events, e) then Run(Fail(DuplicatedId), s)
    else Run(Pass, s.(events := s.events + [e]))
  }

  // ---------------------------------------------------------------------------
  // Counters

  /** The stored value of a counter; a counter never incremented reads 0. */
  function CounterValue(s: State, name: string): int
  {
    if name in s.counters then s.counters[name] else 0
  }

  /** `CountersRepository.GetNextSequenceValue`: increments the counter by one,
      creating it on first use, and returns the incremented value. */
  function NextSequenceValue(s: State, name: string, fault: bool): (r: Run<Result<int>>)
    ensures fault ==> r == Run(Err(GetNextSequenceValueGenericError), s)
    ensures !fault ==> && r.result == Ok(CounterValue(s, name) + 1)
                       && CounterValue(r.state, name) == CounterValue(s, name) + 1
                       && r.state.orders == s.orders && r.state.events == s.events
                       && forall other :: other != name ==> CounterValue(r.state, other) == CounterValue(s, other)
    ensures Consistent(s) ==> Consistent(r.state)
  {
    if fault then Run(Err(GetNextSequenceValueGenericError), s)
    else
      var value := CounterValue(s, name) + 1;
      Run(Ok(value), s.(counters := s.counters[name := value]))
  }

  // ---------------------------------------------------------------------------
  // The stored state as the services see it

  /** The three collections, updated in place by the repository calls. `writes`
      records every writing call made, successful or not. */
  class Store {
    var orders: seq<OrderDocument>
    var events: seq<Event>
    var counters: map<string, int>
    ghost var writes: seq<Write>

    function Stored(): State
      reads this
    {
      State(orders, events, counters)
    }

    constructor (s: State)
      ensures Stored() == s && writes == []
    {
      orders := s.orders;
      events := s.events;
      counters := s.counters;
      writes := [];
    }

    /** `GetAsync`: a fresh order object for the stored document. */
    method GetAsync(id: int, fault: bool) returns (r: Result<Option<Order>>)
      ensures var f := FetchOrder(Stored(), id, fault);
              && (r.Err? <==> f.Err?)
              && (r.Err? ==> r.error == f.error)
              && (r.Ok? ==> (r.value.Some? <==> f.value.Some?))
              && (r.Ok? && r.value.Some? ==> fresh(r.value.value) && r.value.value.Document() == f.value.value)
    {
      var f := FetchOrder(Stored(), id, fault);
      match f
      case Err(e) =>
        r := Err(e);
      case Ok(None) =>
        r := Ok(None);
      case Ok(Some(d)) =>
        var order := new Order(d);
        r := Ok(Some(order));
    }

    method GetByFiltersAsync(expression: OrderDocument -> bool, fault: bool) returns (r: Result<seq<OrderDocument>>)
      ensures r == FetchOrders(Stored(), expression, fault)
    {
      r := FetchOrders(Stored(), expression, fault);
    }

    method SaveOrderAsync(d: OrderDocument, fault: bool) returns (r: Outcome)
      modifies this
      ensures var run := InsertOrder(old(Stored()), d, fault);
              r == run.result && Stored() == run.state && writes == old(writes) + [OrderInsert(d.orderId)]
    {
      var run := InsertOrder(Stored(), d, fault);
      orders, events, counters := run.state.orders, run.state.events, run.state.counters;
      writes := writes + [OrderInsert(d.orderId)];
      r := run.result;
    }

    method UpdateAsync(order: Order, fault: bool) returns (r: Outcome)
      modifies this
      ensures var run := ReplaceOrder(old(Stored()), order.Document(), fault);
              r == run.result && Stored() == run.state && writes == old(writes) + [OrderReplace(order.orderId)]
    {
      var run := ReplaceOrder(Stored(), order.Document(), fault);
      orders, events, counters := run.state.orders, run.state.events, run.state.counters;
      writes := writes + [OrderReplace(order.orderId)];
      r := run.result;
    }

    method GetByOrderIdAsync(orderId: int, fault: bool) returns (r: Result<seq<Event>>)
      ensures r == FetchEvents(Stored(), orderId, fault)
    {
      r := FetchEvents(Stored(), orderId, fault);
    }

    method GetLastByOrderIdAsync(orderId: int, fault: bool) returns (r: Result<Option<Event>>)
      ensures r == FetchLastEvent(Stored(), orderId, fault)
    {
      r := FetchLastEvent(Stored(), orderId, fault);
    }

    method SaveEventAsync(e: Event, fault: bool) returns (r: Outcome)
      modifies this
      ensures var run := InsertEvent(old(Stored()), e, fault);
              r == run.result && Stored() == run.state && writes == old(writes) + [EventInsert(e.eventId, e.orderId)]
    {
      var run := InsertEvent(Stored(), e, fault);
      orders, events, counters := run.state.orders, run.state.events, run.state.counters;
      writes := writes + [EventInsert(e.eventId, e.orderId)];
      r := run.result;
    }

    method GetNextSequenceValue(name: string, fault: bool) returns (r: Result<int>)
      modifies this
      ensures var run := NextSequenceValue(old(Stored()), name, fault);
              r == run.result && Stored() == run.state && writes == old(writes) + [CounterIncrement(name)]
    {
      var run := NextSequenceValue(Stored(), name, fault);
      orders, events, counters := run.state.orders, run.state.events, run.state.counters;
      writes := writes + [CounterIncrement(name)];
      r := run.result;
    }
  }
}

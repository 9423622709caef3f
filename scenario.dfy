/** The requests of the API's functional tests, chained into one order
    lifecycle over the service specifications on an empty store: create an
    order, register its payment, read it back, find it by id, and retry the
    payment. The tests themselves send these requests to mocked repositories
    and never run the chain end to end. */
module Scenarios {
  import opened Results
  import opened SystemTypes
  import opened Enums
  import opened BuyerEntity
  import opened ProductEntity
  import opened OrderEntity
  import opened SearchOrderFilters
  import opened Dtos
  import opened Repositories
  import opened EventsServices
  import opened OrdersServices

  /** A string whose first character is not white space is not blank. */
  lemma NotBlank(s: string)
    requires |s| > 0 && !IsWhiteSpace(s[0])
    ensures !IsNullOrWhiteSpace(Some(s))
  {
  }

  const SampleBuyer: CreateOrderBuyer :=
    CreateOrderBuyer(Some("Juan"), Some("Pérez"), Some("DOC123"), Some("+541112345678"))

  const SampleLines: seq<CreateOrderProduct> := [
    CreateOrderProduct(Some("P001"), Some("Producto A"), Some("Descripción"), 1000.0, 2),
    CreateOrderProduct(Some("P002"), Some("Producto B"), Some("Descripción"), 20.0, 1)
  ]

  const Empty: State := State([], [], map[])

  /** A time-zone conversion for bounds already given in UTC. */
  function AlreadyUniversal(d: DateTime): DateTime
  {
    d
  }

  function SampleRequest(channel: OriginChannel, now: int): CreateOrderRequest
  {
    CreateOrderRequest(Some("EXT-001"), channel, UtcAt(now), 2020.0, SampleBuyer, SampleLines)
  }

  function SampleOrder(channel: OriginChannel, now: int): OrderDocument
  {
    OrderDocument(1, "EXT-001", channel, UtcAt(now), 2020.0, SampleBuyerValue(), SampleProducts(),
                  OrderStatus.Created, UtcAt(now))
  }

  function Payment(later: int): RegisterEventRequest
  {
    RegisterEventRequest(Some("EVT-XYZ"), EventType.PaymentReceived, UtcAt(later), Some("user@example.com"))
  }

  function PaymentEvent(later: int): EventEntity.Event
  {
    EventEntity.Event(1, "EVT-XYZ", EventType.PaymentReceived, UtcAt(later), Some("user@example.com"))
  }

  function Paid(channel: OriginChannel, now: int, later: int): OrderDocument
  {
    SampleOrder(channel, now).(status := OrderStatus.PaymentReceived, updatedOn := UtcAt(later))
  }

  function SampleBuyerValue(): Buyer
  {
    Buyer("Juan", "Pérez", "DOC123", "+541112345678")
  }

  function SampleProducts(): seq<Product>
  {
    [Product("P001", "Producto A", "Descripción", 1000.0, 2), Product("P002", "Producto B", "Descripción", 20.0, 1)]
  }

  /** The sample buyer is valid. */
  lemma SampleBuyerIsValid()
    ensures RequestBuyer(SampleRequest(0, 0)) == Ok(SampleBuyerValue())
  {
    NotBlank("Juan");
    NotBlank("Pérez");
    NotBlank("DOC123");
    NotBlank("+541112345678");
  }

  /** The sample product lines are valid and add up to 2020. */
  lemma SampleProductsAreValid()
    ensures CreateProducts(SampleLines) == Ok(SampleProducts())
    ensures Total(SampleProducts()) == 2020.0
  {
    NotBlank("P001");
    NotBlank("P002");
    NotBlank("Producto A");
    NotBlank("Producto B");
    NotBlank("Descripción");
    var ps := SampleProducts();
    assert MakeProduct(SampleLines[0]) == Ok(ps[0]);
    assert MakeProduct(SampleLines[1]) == Ok(ps[1]);
    assert SampleLines[1..] == [SampleLines[1]];
    assert [SampleLines[1]][1..] == [];
    assert CreateProducts([SampleLines[1]]) == Ok([ps[1]] + []);
    assert [ps[1]] + [] == [ps[1]];
    assert ps == [ps[0]] + [ps[1]];
    assert ps[1..] == [ps[1]];
    assert ps[1..][1..] == [];
  }

  /** Creating the sample order on an empty store allocates id 1. */
  lemma SampleCreation(channel: OriginChannel, now: int)
    ensures CreateOrderRun(Empty, SampleRequest(channel, now), now, CreateOrderFaults(false, false))
            == Creation(Ok(CreateOrderResponse(1, OrderStatus.Created, UtcAt(now))),
                        State([SampleOrder(channel, now)], [], map[OrdersCounter := 1]),
                        [CounterIncrement(OrdersCounter), OrderInsert(1)])
  {
    var req := SampleRequest(channel, now);
    SampleBuyerIsValid();
    assert RequestBuyer(req) == RequestBuyer(SampleRequest(0, 0));
    SampleProductsAreValid();
    NotBlank("EXT-001");
    assert NextSequenceValue(Empty, OrdersCounter, false).result == Ok(1);
    assert Present(AsArgument(SampleProducts())) == SampleProducts();
    assert OrderEntity.Create(1, req.externalReferenceId, channel, UtcAt(now), 2020.0, Some(SampleBuyerValue()),
                              AsArgument(SampleProducts()), now)
           == Ok(SampleOrder(channel, now));
  }

  /** The payment moves the sample order from Created to PaymentReceived,
      storing the event first and the order second. */
  lemma SamplePayment(channel: OriginChannel, now: int, later: int)
    ensures Register(State([SampleOrder(channel, now)], [], map[OrdersCounter := 1]), 1, Payment(later), later, NoFaults)
            == Registration(Ok(Some(RegisterEventResponse(1, OrderStatus.Created, OrderStatus.PaymentReceived, UtcAt(later)))),
                            State([Paid(channel, now, later)], [PaymentEvent(later)], map[OrdersCounter := 1]),
                            [EventInsert("EVT-XYZ", 1), OrderReplace(1)])
  {
    var s := State([SampleOrder(channel, now)], [], map[OrdersCounter := 1]);
    NotBlank("EVT-XYZ");
    assert FetchOrder(s, 1, false) == Ok(Some(SampleOrder(channel, now)));
    var req := Payment(later);
    assert EventEntity.Create(1, req.id, req.eventType, req.date, req.user) == Ok(PaymentEvent(later));
    assert Allowed(OrderStatus.Created, EventType.PaymentReceived) by {
      assert ValidStatusesTransitions[OrderStatus.Created][0] == EventType.PaymentReceived;
    }
    assert InsertEvent(s, PaymentEvent(later), false).state == s.(events := [PaymentEvent(later)]);
  }

  /** Reading the paid order shows its new status and its one event. */
  lemma SampleRead(channel: OriginChannel, now: int, later: int)
    ensures GetOrderRun(State([Paid(channel, now, later)], [PaymentEvent(later)], map[OrdersCounter := 1]), 1,
                        GetOrderFaults(false, false))
            == Ok(OrderView(Paid(channel, now, later)).(events := [Some(GetOrderEvent("EVT-XYZ", EventType.PaymentReceived, UtcAt(later)))]))
  {
    assert EventsOf([PaymentEvent(later)], 1) == [PaymentEvent(later)];
    assert EventViews([PaymentEvent(later)]) == [Some(GetOrderEvent("EVT-XYZ", EventType.PaymentReceived, UtcAt(later)))];
  }

  /** Searching by the order's id lists it alone, with its latest event. */
  lemma SampleSearch(channel: OriginChannel, now: int, later: int)
    ensures SearchOrdersRun(State([Paid(channel, now, later)], [PaymentEvent(later)], map[OrdersCounter := 1]),
                            NoFilters.(orderId := Some(1)), AlreadyUniversal, SearchFaults(false, {}))
            == Ok([OrderView(Paid(channel, now, later)).(events := [Some(GetOrderEvent("EVT-XYZ", EventType.PaymentReceived, UtcAt(later)))])])
  {
    var filters := NoFilters.(orderId := Some(1));
    assert Expression(filters, AlreadyUniversal)(Paid(channel, now, later));
    assert Where([Paid(channel, now, later)], Expression(filters, AlreadyUniversal)) == [Paid(channel, now, later)];
    assert Latest([PaymentEvent(later)], 1) == Some(PaymentEvent(later));
    var r := SearchOrdersRun(State([Paid(channel, now, later)], [PaymentEvent(later)], map[OrdersCounter := 1]),
                             filters, AlreadyUniversal, SearchFaults(false, {}));
    assert |r.value| == 1;
    var s := State([Paid(channel, now, later)], [PaymentEvent(later)], map[OrdersCounter := 1]);
    assert LatestEventEntry(s, 1, false) == [Some(GetOrderEvent("EVT-XYZ", EventType.PaymentReceived, UtcAt(later)))];
    assert r.value[0] == OrderView(Paid(channel, now, later)).(events := LatestEventEntry(s, 1, false));
    assert r.value == [OrderView(Paid(channel, now, later)).(events := LatestEventEntry(s, 1, false))];
  }

  /** Sending the same payment again is refused as an invalid event type and
      writes nothing. */
  lemma SampleRetry(channel: OriginChannel, now: int, later: int, retry: int)
    ensures var s := State([Paid(channel, now, later)], [PaymentEvent(later)], map[OrdersCounter := 1]);
            Register(s, 1, Payment(later), retry, NoFaults) == Registration(Err(InvalidEventType), s, [])
  {
    NotBlank("EVT-XYZ");
    var s := State([Paid(channel, now, later)], [PaymentEvent(later)], map[OrdersCounter := 1]);
    assert FetchOrder(s, 1, false) == Ok(Some(Paid(channel, now, later)));
    assert !Allowed(OrderStatus.PaymentReceived, EventType.PaymentReceived) by {
      NoRepeatedTransition(EventType.PaymentReceived);
    }
  }

  /** The whole walk on an empty store: the order gets id 1 in status Created;
      the payment moves it from Created to PaymentReceived; reading it shows
      the new status and the one event; searching by its id lists it alone
      with that event; and the same payment sent again is refused as an
      invalid event type, writing nothing. */
  lemma OrderLifecycle(channel: OriginChannel, now: int, later: int, retry: int)
    ensures var created := CreateOrderRun(Empty, SampleRequest(channel, now), now, CreateOrderFaults(false, false));
            var registered := Register(created.state, 1, Payment(later), later, NoFaults);
            var read := GetOrderRun(registered.state, 1, GetOrderFaults(false, false));
            var again := Register(registered.state, 1, Payment(later), retry, NoFaults);
            && created.result == Ok(CreateOrderResponse(1, OrderStatus.Created, UtcAt(now)))
            && registered.result
               == Ok(Some(RegisterEventResponse(1, OrderStatus.Created, OrderStatus.PaymentReceived, UtcAt(later))))
            && read.Ok? && read.value.status == OrderStatus.PaymentReceived && read.value.totalValue == 2020.0
            && read.value.events == [Some(GetOrderEvent("EVT-XYZ", EventType.PaymentReceived, UtcAt(later)))]
            && SearchOrdersRun(registered.state, NoFilters.(orderId := Some(1)), AlreadyUniversal, SearchFaults(false, {}))
               == Ok([read.value])
            && again.result == Err(InvalidEventType) && again.state == registered.state && again.writes == []
  {
    SampleCreation(channel, now);
    SamplePayment(channel, now, later);
    SampleRead(channel, now, later);
    SampleSearch(channel, now, later);
    SampleRetry(channel, now, later, retry);
  }
}

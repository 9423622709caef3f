/** The request and response shapes the services exchange with their callers,
    and the mapping from entities to responses. Translated display texts are
    not modelled. */
module Dtos {
  import opened Results
  import opened SystemTypes
  import opened Enums
  import opened BuyerEntity
  import opened ProductEntity
  import opened EventEntity
  import opened OrderEntity

  // ---------------------------------------------------------------------------
  // Requests; a string a client may send as null is an `Option<string>`

  datatype CreateOrderBuyer = CreateOrderBuyer(
    firstName: Option<string>, lastName: Option<string>,
    documentNumber: Option<string>, phone: Option<string>)

  datatype CreateOrderProduct = CreateOrderProduct(
    sku: Option<string>, name: Option<string>, description: Option<string>,
    price: real, quantity: int)

  datatype CreateOrderRequest = CreateOrderRequest(
    externalReferenceId: Option<string>,
    channel: OriginChannel,
    purchaseDate: DateTime,
    totalValue: real,
    buyer: CreateOrderBuyer,
    products: seq<CreateOrderProduct>)

  datatype RegisterEventRequest = RegisterEventRequest(
    id: Option<string>, eventType: EventType, date: DateTime, user: Option<string>)

  // ---------------------------------------------------------------------------
  // Responses

  datatype CreateOrderResponse = CreateOrderResponse(orderId: int, status: OrderStatus, updatedOn: DateTime)

  datatype RegisterEventResponse = RegisterEventResponse(
    orderId: int, previousStatus: OrderStatus, newStatus: OrderStatus, updatedOn: DateTime)

  datatype GetOrderEvent = GetOrderEvent(id: string, eventType: EventType, date: DateTime)

  /** `GetOrderResponse`. An entry of `events` is `None` where the mapper was
      handed a null event. */
  datatype GetOrderResponse = GetOrderResponse(
    orderId: int,
    externalReferenceId: string,
    channel: OriginChannel,
    purchaseDate: DateTime,
    totalValue: real,
    buyer: Buyer,
    products: seq<Product>,
    status: OrderStatus,
    updatedOn: DateTime,
    events: seq<Option<GetOrderEvent>>)

  // ---------------------------------------------------------------------------
  // Mapping

  /** An event as a response shows it: its event id becomes `Id`. */
  function EventView(e: Event): GetOrderEvent
  {
    GetOrderEvent(e.eventId, e.eventType, e.date)
  }

  /** An order as a response shows it, field by field, with no events yet. */
  function OrderView(d: OrderDocument): GetOrderResponse
  {
    GetOrderResponse(d.orderId, d.externalReferenceId, d.originChannel, d.purchaseDate, d.totalValue,
                     d.buyer, d.products, d.status, d.updatedOn, [])
  }

  /** The events of a list, mapped one by one in the same order. */
  function EventViews(es: seq<Event>): (vs: seq<Option<GetOrderEvent>>)
    ensures |vs| == |es|
    ensures forall i :: 0 <= i < |es| ==> vs[i] == Some(EventView(es[i]))
  {
    seq(|es|, i requires 0 <= i < |es| => Some(EventView(es[i])))
  }
}

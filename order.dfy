/** The order aggregate: its creation guard chain, its status state machine
    and the object whose status the services mutate in place. */
module OrderEntity {
  import opened Results
  import opened SystemTypes
  import opened Enums
  import opened BuyerEntity
  import opened ProductEntity
  import opened EventEntity

  /** The persisted content of an order; the storage-assigned document id is
      not modelled. */
  datatype OrderDocument = OrderDocument(
    orderId: int,
    externalReferenceId: string,
    originChannel: OriginChannel,
    purchaseDate: DateTime,
    totalValue: real,
    buyer: Buyer,
    products: seq<Product>,
    status: OrderStatus,
    updatedOn: DateTime)

  // ---------------------------------------------------------------------------
  // Creation

  /** The products argument is present, non-empty and has no null entry. */
  predicate ProductsPresent(products: Option<seq<Option<Product>>>)
  {
    && products.Some?
    && |products.value| >= 1
    && forall i :: 0 <= i < |products.value| ==> products.value[i].Some?
  }

  /** The products of a present list, with the nulls ruled out. */
  function Present(products: Option<seq<Option<Product>>>): (ps: seq<Product>)
    requires ProductsPresent(products)
    ensures |ps| == |products.value|
    ensures forall i :: 0 <= i < |ps| ==> products.value[i] == Some(ps[i])
  {
    seq(|products.value|, i requires 0 <= i < |products.value| => products.value[i].value)
  }

  /** Every check of `Order.Create` passes. */
  predicate Acceptable(id: int, externalReferenceId: Option<string>, purchaseDate: DateTime,
                       totalValue: real, buyer: Option<Buyer>, products: Option<seq<Option<Product>>>)
  {
    && id >= 1
    && buyer.Some?
    && ProductsPresent(products)
    && !IsNullOrWhiteSpace(externalReferenceId)
    && purchaseDate.kind == Utc
    && totalValue == Total(Present(products))
  }

  /** `Order.Create`: checks, in this order, the id, the buyer, the products,
      the external reference, the kind of the purchase date and the total, and
      reports only the first failing check. `now` is the clock reading that
      `DateTime.UtcNow` would give. */
  function Create(id: int, externalReferenceId: Option<string>, originChannel: OriginChannel,
                  purchaseDate: DateTime, totalValue: real, buyer: Option<Buyer>,
                  products: Option<seq<Option<Product>>>, now: int): (r: Result<OrderDocument>)
    ensures r.Ok? <==> Acceptable(id, externalReferenceId, purchaseDate, totalValue, buyer, products)
    // a created order echoes its arguments, starts in Created and was updated now
    ensures r.Ok? ==> r.value == OrderDocument(id, externalReferenceId.value, originChannel, purchaseDate,
                                               totalValue, buyer.value, Present(products),
                                               OrderStatus.Created, UtcAt(now))
    // the error reported is that of the first failing check
    ensures id < 1 ==> r == Err(InvalidId)
    ensures id >= 1 && buyer.None? ==> r == Err(BuyerEmpty)
    ensures id >= 1 && buyer.Some? && !ProductsPresent(products) ==> r == Err(ProductsEmpty)
    ensures (id >= 1 && buyer.Some? && ProductsPresent(products) && IsNullOrWhiteSpace(externalReferenceId))
            ==> r == Err(ExternalReferenceIdEmpty)
    ensures (id >= 1 && buyer.Some? && ProductsPresent(products) && !IsNullOrWhiteSpace(externalReferenceId)
             && purchaseDate.kind != Utc)
            ==> r == Err(PurchaseDateNonUtc)
    // once the earlier checks pass, the total is compared exactly, with no tolerance
    ensures (id >= 1 && buyer.Some? && ProductsPresent(products) && !IsNullOrWhiteSpace(externalReferenceId)
             && purchaseDate.kind == Utc)
            ==> (r == Err(OrderValueMismatchProducts) <==> totalValue != Total(Present(products)))
  {
    if id < 1 then Err(InvalidId)
    else if buyer.None? then Err(BuyerEmpty)
    else if !ProductsPresent(products) then Err(ProductsEmpty)
    else if IsNullOrWhiteSpace(externalReferenceId) then Err(ExternalReferenceIdEmpty)
    else if purchaseDate.kind != Utc then Err(PurchaseDateNonUtc)
    else if totalValue != Total(Present(products)) then Err(OrderValueMismatchProducts)
    else Ok(OrderDocument(id, externalReferenceId.value, originChannel, purchaseDate, totalValue,
                          buyer.value, Present(products), OrderStatus.Created, UtcAt(now)))
  }

  /** An order created from products that `Product.Create` accepted has a
      positive total value. */
  lemma CreatedTotalIsPositive(id: int, externalReferenceId: Option<string>, originChannel: OriginChannel,
                               purchaseDate: DateTime, totalValue: real, buyer: Option<Buyer>,
                               products: Option<seq<Option<Product>>>, now: int)
    requires Create(id, externalReferenceId, originChannel, purchaseDate, totalValue, buyer, products, now).Ok?
    requires forall i :: 0 <= i < |products.value| ==> products.value[i].Some? && ProductEntity.WellFormed(products.value[i].value)
    ensures Create(id, externalReferenceId, originChannel, purchaseDate, totalValue, buyer, products, now).value.totalValue > 0.0
  {
    TotalOfWellFormedIsPositive(Present(products));
  }

  // ---------------------------------------------------------------------------
  // Status transitions

  /** `VALID_STATUSES_TRANSITIONS`: for each status that has a next status, the
      event types that may be applied to it. */
  const ValidStatusesTransitions: map<OrderStatus, seq<EventType>> :=
    map[
      OrderStatus.Created := [EventType.PaymentReceived, EventType.Canceled],
      OrderStatus.PaymentReceived := [EventType.Invoiced],
      OrderStatus.Invoiced := [EventType.Returned]
    ]

  /** The lifecycle as a plain relation, independent of the table's layout. */
  predicate Allowed(from: OrderStatus, t: EventType)
  {
    || (from == OrderStatus.Created && t == EventType.PaymentReceived)
    || (from == OrderStatus.Created && t == EventType.Canceled)
    || (from == OrderStatus.PaymentReceived && t == EventType.Invoiced)
    || (from == OrderStatus.Invoiced && t == EventType.Returned)
  }

  /** The terminal statuses: those with no outgoing transition. */
  predicate IsTerminal(s: OrderStatus)
  {
    s == OrderStatus.Canceled || s == OrderStatus.Returned
  }

  /** The table holds exactly the lifecycle relation, and its missing keys are
      exactly the terminal statuses. */
  lemma TableIsLifecycle(from: OrderStatus, t: EventType)
    ensures from !in ValidStatusesTransitions <==> IsTerminal(from)
    ensures (from in ValidStatusesTransitions && t in ValidStatusesTransitions[from]) <==> Allowed(from, t)
  {
  }

  /** `MapFromEvent`: the order status that an event type leads to, the one of
      the same name. */
  function MapFromEvent(t: EventType): (s: OrderStatus)
    ensures StatusName(s) == EventTypeName(t)
    ensures s != OrderStatus.Created
  {
    match t
    case PaymentReceived => OrderStatus.PaymentReceived
    case Canceled => OrderStatus.Canceled
    case Invoiced => OrderStatus.Invoiced
    case Returned => OrderStatus.Returned
  }

  /** How far along the lifecycle a status is. */
  function Rank(s: OrderStatus): nat
  {
    match s
    case Created => 0
    case PaymentReceived => 1
    case Invoiced => 2
    case Canceled => 3
    case Returned => 3
  }

  /** The table lookup of `Update`: a status that is not a key has no next
      status; an event type outside the listed ones is invalid. */
  function NextStatus(current: OrderStatus, t: EventType): (r: Result<OrderStatus>)
    ensures r.Ok? <==> Allowed(current, t)
    ensures r.Ok? ==> r.value == MapFromEvent(t)
    ensures IsTerminal(current) ==> r == Err(NextStatusUnavailable)
    ensures !IsTerminal(current) && !Allowed(current, t) ==> r == Err(InvalidEventType)
    // every transition moves strictly forward, so none ever re-enters Created
    ensures r.Ok? ==> Rank(r.value) > Rank(current) && r.value != OrderStatus.Created
  {
    if current !in ValidStatusesTransitions then Err(NextStatusUnavailable)
    else if t !in ValidStatusesTransitions[current] then Err(InvalidEventType)
    else Ok(MapFromEvent(t))
  }

  /** What a successful or failed `Update` does to an order's content: it first
      checks that the event is for this order, then consults the table; on
      success only the status and the update time change. */
  function Transition(d: OrderDocument, ev: Event, now: int): (r: Result<OrderDocument>)
    ensures r.Ok? <==> ev.orderId == d.orderId && Allowed(d.status, ev.eventType)
    ensures r.Ok? ==> r.value == d.(status := MapFromEvent(ev.eventType), updatedOn := UtcAt(now))
    ensures ev.orderId != d.orderId ==> r == Err(MismatchId)
    ensures ev.orderId == d.orderId && IsTerminal(d.status) ==> r == Err(NextStatusUnavailable)
    ensures (ev.orderId == d.orderId && !IsTerminal(d.status) && !Allowed(d.status, ev.eventType))
            ==> r == Err(InvalidEventType)
  {
    if ev.orderId != d.orderId then Err(MismatchId)
    else
      match NextStatus(d.status, ev.eventType)
      case Err(e) => Err(e)
      case Ok(next) => Ok(d.(status := next, updatedOn := UtcAt(now)))
  }

  /** The order after a series of `Update` calls, each paired with the clock
      reading it is made at; a call that fails leaves the order as it was. */
  function Replay(d: OrderDocument, updates: seq<(Event, int)>): OrderDocument
    decreases |updates|
  {
    if updates == [] then d
    else
      var r := Transition(d, updates[0].0, updates[0].1);
      Replay(if r.Ok? then r.value else d, updates[1..])
  }

  /** How many calls of such a series succeed. */
  function Applied(d: OrderDocument, updates: seq<(Event, int)>): nat
    decreases |updates|
  {
    if updates == [] then 0
    else
      var r := Transition(d, updates[0].0, updates[0].1);
      (if r.Ok? then 1 else 0) + Applied(if r.Ok? then r.value else d, updates[1..])
  }

  /** Whatever events arrive, at whatever times: an order that has left
      Created never returns to it, at most three updates ever succeed on a new
      order, and nothing but the status and the update time ever changes. */
  lemma {:induction false} ReplayProgress(d: OrderDocument, updates: seq<(Event, int)>)
    ensures Rank(Replay(d, updates).status) >= Rank(d.status)
    ensures Applied(d, updates) <= Rank(Replay(d, updates).status) - Rank(d.status)
    ensures Applied(d, updates) <= 3 - Rank(d.status)
    ensures d.status != OrderStatus.Created || Applied(d, updates) > 0
            ==> Replay(d, updates).status != OrderStatus.Created
    ensures Replay(d, updates).(status := d.status, updatedOn := d.updatedOn) == d
    decreases |updates|
  {
    if updates != [] {
      var r := Transition(d, updates[0].0, updates[0].1);
      var next := if r.Ok? then r.value else d;
      ReplayProgress(next, updates[1..]);
    }
  }

  // ---------------------------------------------------------------------------
  // The mutable aggregate

  /** An order object as the services hold it: every field but the status and
      the update time is fixed once the object exists. */
  class Order {
    const orderId: int
    const externalReferenceId: string
    const originChannel: OriginChannel
    const purchaseDate: DateTime
    const totalValue: real
    const buyer: Buyer
    const products: seq<Product>
    var status: OrderStatus
    var updatedOn: DateTime

    /** The order's current content. */
    function Document(): OrderDocument
      reads this
    {
      OrderDocument(orderId, externalReferenceId, originChannel, purchaseDate, totalValue,
                    buyer, products, status, updatedOn)
    }

    /** An order object holding the given content, as the storage driver
        materialises one. */
    constructor (d: OrderDocument)
      ensures Document() == d
    {
      orderId := d.orderId;
      externalReferenceId := d.externalReferenceId;
      originChannel := d.originChannel;
      purchaseDate := d.purchaseDate;
      totalValue := d.totalValue;
      buyer := d.buyer;
      products := d.products;
      status := d.status;
      updatedOn := d.updatedOn;
    }

    /** `Order.Update`: applies an event in place and returns the status the
        order had before. On failure nothing changes. */
    method Update(ev: Event, now: int) returns (r: Result<OrderStatus>)
      modifies this
      ensures var t := Transition(old(Document()), ev, now);
              && (r.Ok? <==> t.Ok?)
              && (t.Ok? ==> r.value == old(status) && Document() == t.value)
              && (t.Err? ==> r == Err(t.error) && Document() == old(Document()))
    {
      if ev.orderId != orderId {
        return Err(MismatchId);
      }
      if status !in ValidStatusesTransitions {
        return Err(NextStatusUnavailable);
      }
      var statuses := ValidStatusesTransitions[status];
      if ev.eventType !in statuses {
        return Err(InvalidEventType);
      }
      // The source's mapping has a fallback error for an unknown event type;
      // with a closed enumeration that fallback cannot be reached.
      var next := MapFromEvent(ev.eventType);
      var previousStatus := status;
      status := next;
      updatedOn := UtcAt(now);
      return Ok(previousStatus);
    }
  }
}

/** The closed enumerations of the domain. They are persisted by name, so
    each one also has its name as a string. */
module Enums {

  /** `OrderStatus`: where an order is in its lifecycle. */
  datatype OrderStatus = Created | PaymentReceived | Canceled | Invoiced | Returned

  /** `EventType`: what an externally reported event says happened. */
  datatype EventType = PaymentReceived | Canceled | Invoiced | Returned

  /** `OriginChannel`: the sales channel an order came from, by its enum value.
      Channels are only ever compared for equality. */
  newtype OriginChannel = int

  function StatusName(s: OrderStatus): string
  {
    match s
    case Created => "Created"
    case PaymentReceived => "PaymentReceived"
    case Canceled => "Canceled"
    case Invoiced => "Invoiced"
    case Returned => "Returned"
  }

  function EventTypeName(t: EventType): string
  {
    match t
    case PaymentReceived => "PaymentReceived"
    case Canceled => "Canceled"
    case Invoiced => "Invoiced"
    case Returned => "Returned"
  }
}

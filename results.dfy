/** Result values and the error catalogue.

    Every operation of the order backend reports failure by returning a
    result that carries exactly one error message; nothing throws on purpose.
    The messages are the constants of the domain and infrastructure error
    classes; here each one is a constructor of `Error`, and `Message` gives
    its text.
 */
module Results {

  /** A value that may be absent; `None` stands for a C# `null`. */
  datatype Option<+T> = None | Some(value: T)

  /** The outcome of an operation that yields a value. */
  datatype Result<+T> = Ok(value: T) | Err(error: Error)

  /** The outcome of an operation that yields no value (a bare `Result`). */
  datatype Outcome = Pass | Fail(error: Error)

  datatype Error =
    // Domain errors of the order aggregate
    | InvalidId
    | MismatchId
    | BuyerEmpty
    | ProductsEmpty
    | ExternalReferenceIdEmpty
    | PurchaseDateNonUtc
    | OrderValueMismatchProducts
    | NextStatusUnavailable
    | InvalidEventType
    // Domain errors of the event entity
    | InvalidOrderId
    | IdEmpty
    | UserEmpty
    // Domain errors of the buyer value object
    | FirstNameEmpty
    | LastNameEmpty
    | DocumentNumberEmpty
    | PhoneEmpty
    // Domain errors of the product value object
    | SkuEmpty
    | NameEmpty
    | DescriptionEmpty
    | ProductPriceLessOrEquals0
    | ProductQuantityLessOrEquals0
    // Infrastructure errors of the orders repository
    | GetAsyncGenericError
    | GetByFiltersAsyncGenericError
    | DuplicatedOrderError
    | OrdersSaveAsyncGenericError
    | UpdateAsyncGenericError
    // Infrastructure errors of the events repository
    | GetByOrderIdAsyncGenericError
    | GetLastByOrderIdAsyncGenericError
    | DuplicatedId
    | EventsSaveAsyncGenericError
    // Infrastructure error of the counters repository
    | GetNextSequenceValueGenericError
    // Not an error value of the source: the NullReferenceException raised
    // where a service dereferences the null that a lookup returns for a
    // missing document. Nothing in the services catches it.
    | NullReferenceThrown

  /** The human-readable text of an error, where the source defines one. */
  function Message(e: Error): Option<string>
  {
    match e
    case InvalidId => Some("Id must be a valid value.")
    case MismatchId => Some("Event order id does not match with order id.")
    case BuyerEmpty => Some("Buyer can not be null.")
    case ProductsEmpty => Some("Products can not be null or empty.")
    case ExternalReferenceIdEmpty => Some("ExternalReferenceId must contain a value.")
    case PurchaseDateNonUtc => Some("PurchaseDate must be a UTC value.")
    case OrderValueMismatchProducts => Some("TotalValue does not match product's values.")
    case NextStatusUnavailable => Some("Order has no next status available.")
    case InvalidEventType => Some("Event type is invalid for the order status.")
    case InvalidOrderId => Some("OrderId must have a valid value.")
    case IdEmpty => Some("Id must have a non null & not empty value.")
    case UserEmpty => Some("User must have a not empty or null value.")
    case FirstNameEmpty => Some("Buyer's first name must not be empty.")
    case LastNameEmpty => Some("Buyer's last name must not be empty.")
    case DocumentNumberEmpty => Some("Buyer's document number must not be empty.")
    case PhoneEmpty => Some("Buyer's phone must not be empty.")
    case SkuEmpty => Some("Product's sku can not be null or empty.")
    case NameEmpty => Some("Product's name can not be null or empty.")
    case DescriptionEmpty => Some("Product's description can not be null or empty.")
    case ProductPriceLessOrEquals0 => Some("Product's price must be greater than 0.")
    case ProductQuantityLessOrEquals0 => Some("Product's quantity must be greater than 0.")
    case GetAsyncGenericError => Some("Error attempting to retrieve order.")
    case GetByFiltersAsyncGenericError => Some("Error attempting to retrieve orders.")
    case DuplicatedOrderError => Some("An order with same ExternalReferenceId and Channel already exists.")
    case OrdersSaveAsyncGenericError => Some("Error attempting to create new order.")
    case UpdateAsyncGenericError => Some("Error attempting to update order.")
    case GetByOrderIdAsyncGenericError => Some("Error attempting to retrieve events from order id.")
    case GetLastByOrderIdAsyncGenericError => Some("Error attempting to retrieve last event.")
    case DuplicatedId => Some("An event with same Id already exists.")
    case EventsSaveAsyncGenericError => Some("Error attempting to create new event.")
    // The counters' error text is not modelled.
    case GetNextSequenceValueGenericError => None
    case NullReferenceThrown => None
  }
}

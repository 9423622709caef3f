/** The optional search filters and the predicate they build over orders. */
module SearchOrderFilters {
  import opened Results
  import opened SystemTypes
  import opened Enums
  import opened OrderEntity

  /** `SearchOrderFilters`: every field is optional; an absent field places no
      constraint on the orders searched. */
  datatype Filters = Filters(
    orderId: Option<int>,
    documentNumber: Option<string>,
    status: Option<OrderStatus>,
    createdOnFrom: Option<DateTime>,
    createdOnTo: Option<DateTime>)

  const NoFilters: Filters := Filters(None, None, None, None, None)

  /** `GetExpression`: the conjunction of the optional clauses. The bounds are
      converted with `toUniversalTime`, standing for `DateTime.ToUniversalTime`,
      and compared with the purchase date by instant. A null or empty document
      number is a wildcard. Its full meaning, clause by clause, is
      `MatchesIsConjunctionOfClauses`; the ensures below are two samples. */
  predicate Matches(f: Filters, o: OrderDocument, toUniversalTime: DateTime -> DateTime): (b: bool)
    ensures f == NoFilters ==> b
    ensures f.orderId.Some? && f.orderId.value != o.orderId ==> !b
  {
    && (f.orderId.Some? ==> o.orderId == f.orderId.value)
    && (!IsNullOrEmpty(f.documentNumber) ==> o.buyer.documentNumber == f.documentNumber.value)
    && (f.status.Some? ==> o.status == f.status.value)
    && (f.createdOnFrom.Some? ==> o.purchaseDate.ticks >= toUniversalTime(f.createdOnFrom.value).ticks)
    && (f.createdOnTo.Some? ==> o.purchaseDate.ticks <= toUniversalTime(f.createdOnTo.value).ticks)
  }

  /** `GetExpression`: the predicate as a value the orders repository is
      handed. */
  function Expression(f: Filters, toUniversalTime: DateTime -> DateTime): OrderDocument -> bool
  {
    o => Matches(f, o, toUniversalTime)
  }

  // ---------------------------------------------------------------------------
  // The same predicate seen as a set of independent clauses

  /** One constraint an order must meet. */
  datatype Clause =
    | OrderIdIs(id: int)
    | DocumentNumberIs(documentNumber: string)
    | StatusIs(status: OrderStatus)
    | PurchasedNoEarlierThan(instant: int)
    | PurchasedNoLaterThan(instant: int)

  predicate Holds(c: Clause, o: OrderDocument)
  {
    match c
    case OrderIdIs(id) => o.orderId == id
    case DocumentNumberIs(n) => o.buyer.documentNumber == n
    case StatusIs(s) => o.status == s
    case PurchasedNoEarlierThan(t) => o.purchaseDate.ticks >= t
    case PurchasedNoLaterThan(t) => o.purchaseDate.ticks <= t
  }

  /** The clauses a set of filters contributes: one per field that is set (a
      document number only when it is not empty). */
  function Clauses(f: Filters, toUniversalTime: DateTime -> DateTime): set<Clause>
  {
    (if f.orderId.Some? then {OrderIdIs(f.orderId.value)} else {})
    + (if !IsNullOrEmpty(f.documentNumber) then {DocumentNumberIs(f.documentNumber.value)} else {})
    + (if f.status.Some? then {StatusIs(f.status.value)} else {})
    + (if f.createdOnFrom.Some? then {PurchasedNoEarlierThan(toUniversalTime(f.createdOnFrom.value).ticks)} else {})
    + (if f.createdOnTo.Some? then {PurchasedNoLaterThan(toUniversalTime(f.createdOnTo.value).ticks)} else {})
  }

  /** The predicate accepts an order exactly when the order meets every clause
      of the filters; with no filters there are no clauses and every order is
      accepted. */
  lemma MatchesIsConjunctionOfClauses(f: Filters, o: OrderDocument, toUniversalTime: DateTime -> DateTime)
    ensures Matches(f, o, toUniversalTime) <==> forall c :: c in Clauses(f, toUniversalTime) ==> Holds(c, o)
    ensures Clauses(NoFilters, toUniversalTime) == {} && Matches(NoFilters, o, toUniversalTime)
  {
    var cs := Clauses(f, toUniversalTime);
    if f.orderId.Some? { assert OrderIdIs(f.orderId.value) in cs; }
    if !IsNullOrEmpty(f.documentNumber) { assert DocumentNumberIs(f.documentNumber.value) in cs; }
    if f.status.Some? { assert StatusIs(f.status.value) in cs; }
    if f.createdOnFrom.Some? { assert PurchasedNoEarlierThan(toUniversalTime(f.createdOnFrom.value).ticks) in cs; }
    if f.createdOnTo.Some? { assert PurchasedNoLaterThan(toUniversalTime(f.createdOnTo.value).ticks) in cs; }
  }

  /** Filters `g` narrow filters `f` when every constraint `f` sets, `g` sets
      to the same value. */
  predicate Narrows(g: Filters, f: Filters)
  {
    && (f.orderId.Some? ==> g.orderId == f.orderId)
    && (!IsNullOrEmpty(f.documentNumber) ==> g.documentNumber == f.documentNumber)
    && (f.status.Some? ==> g.status == f.status)
    && (f.createdOnFrom.Some? ==> g.createdOnFrom == f.createdOnFrom)
    && (f.createdOnTo.Some? ==> g.createdOnTo == f.createdOnTo)
  }

  /** Setting more fields can only shrink the accepted set: narrower filters
      have more clauses, so what they accept the wider filters accept too. */
  lemma NarrowerFiltersAcceptLess(g: Filters, f: Filters, o: OrderDocument, toUniversalTime: DateTime -> DateTime)
    requires Narrows(g, f)
    ensures Clauses(f, toUniversalTime) <= Clauses(g, toUniversalTime)
    ensures Matches(g, o, toUniversalTime) ==> Matches(f, o, toUniversalTime)
  {
    MatchesIsConjunctionOfClauses(f, o, toUniversalTime);
    MatchesIsConjunctionOfClauses(g, o, toUniversalTime);
  }

  /** The two date bounds are inclusive: an order purchased exactly at the
      converted bound is accepted by each. */
  lemma DateBoundsAreInclusive(o: OrderDocument, bound: DateTime, toUniversalTime: DateTime -> DateTime)
    requires toUniversalTime(bound).ticks == o.purchaseDate.ticks
    ensures Matches(NoFilters.(createdOnFrom := Some(bound)), o, toUniversalTime)
    ensures Matches(NoFilters.(createdOnTo := Some(bound)), o, toUniversalTime)
    ensures Matches(NoFilters.(createdOnFrom := Some(bound), createdOnTo := Some(bound)), o, toUniversalTime)
  {
  }

  /** An empty document number is a wildcard, while a non-empty one, even one of
      spaces only, must equal the buyer's document number. */
  lemma DocumentNumberWildcard(o: OrderDocument, n: string, toUniversalTime: DateTime -> DateTime)
    ensures Matches(NoFilters.(documentNumber := Some("")), o, toUniversalTime)
    ensures Matches(NoFilters.(documentNumber := None), o, toUniversalTime)
    ensures n != "" ==> (Matches(NoFilters.(documentNumber := Some(n)), o, toUniversalTime)
                         <==> o.buyer.documentNumber == n)
  {
  }
}

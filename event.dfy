/** An event reported against an order: immutable once created. The
    storage-assigned document id is not modelled. */
module EventEntity {
  import opened Results
  import opened SystemTypes
  import opened Enums

  /** `user` is nullable: `None` means the caller did not say who acted. */
  datatype Event = Event(orderId: int, eventId: string, eventType: EventType, date: DateTime, user: Option<string>)

  /** `Event.Create`: checks the order id, then the event id, then the user.
      A null user is allowed; only the exact empty string is refused. */
  function Create(orderId: int, id: Option<string>, eventType: EventType, date: DateTime,
                  user: Option<string>): (r: Result<Event>)
    ensures r.Ok? <==> orderId >= 1 && !IsNullOrWhiteSpace(id) && user != Some("")
    ensures r.Ok? ==> r.value == Event(orderId, id.value, eventType, date, user)
    ensures orderId < 1 ==> r == Err(InvalidOrderId)
    ensures orderId >= 1 && IsNullOrWhiteSpace(id) ==> r == Err(IdEmpty)
    ensures orderId >= 1 && !IsNullOrWhiteSpace(id) && user == Some("") ==> r == Err(UserEmpty)
  {
    if orderId < 1 then Err(InvalidOrderId)
    else if IsNullOrWhiteSpace(id) then Err(IdEmpty)
    else if user == Some("") then Err(UserEmpty)
    else Ok(Event(orderId, id.value, eventType, date, user))
  }

  /** The user check is weaker than the other string checks: a missing user and
      a user made only of white space are both accepted, while the same
      white-space string as the event id is refused. */
  lemma UserCheckIsOnlyEmptiness(orderId: int, id: string, eventType: EventType, date: DateTime)
    requires orderId >= 1 && !IsNullOrWhiteSpace(Some(id))
    ensures Create(orderId, Some(id), eventType, date, None).Ok?
    ensures Create(orderId, Some(id), eventType, date, Some(" ")).Ok?
    ensures Create(orderId, Some(id), eventType, date, Some(" ")).value.user == Some(" ")
    ensures Create(orderId, Some(" "), eventType, date, Some(id)) == Err(IdEmpty)
    ensures Create(orderId, Some(id), eventType, date, Some("")) == Err(UserEmpty)
  {
    assert IsNullOrWhiteSpace(Some(" ")) by {
      assert forall i :: 0 <= i < |" "| ==> " "[i] == ' ';
    }
  }
}

/** `EventsService.RegisterEvent`: fetch the order, build the event, apply it
    to the order, save the event, then save the order. */
module EventsServices {
  import opened Results
  import opened SystemTypes
  import opened Enums
  import opened EventEntity
  import opened OrderEntity
  import opened Dtos
  import opened Repositories

  /** Which repository calls of one registration raise a driver exception. */
  datatype RegisterEventFaults = RegisterEventFaults(getOrder: bool, saveEvent: bool, updateOrder: bool)

  const NoFaults: RegisterEventFaults := RegisterEventFaults(false, false, false)

  /** What a registration returns, the state it leaves and the writing calls it
      made, in order. A bare success (`Result.Success()` with no value) is
      `Ok(None)`. */
  datatype Registration = Registration(result: Result<Option<RegisterEventResponse>>, state: State, writes: seq<Write>)

  /** The pipeline, step by step: each failing step returns its error as is,
      except that a duplicate event is reported as a bare success. The fetched
      order's own id is the one the event is built with. */
  function Register(s: State, orderId: int, req: RegisterEventRequest, now: int,
                    faults: RegisterEventFaults): (r: Registration)
    ensures Consistent(s) ==> Consistent(r.state)
    ensures r.writes == [] ==> r.state == s
    // the event always carries the fetched order's id, so Update never sees a mismatch
    ensures r.result != Err(MismatchId)
  {
    match FetchOrder(s, orderId, faults.getOrder)
    case Err(e) => Registration(Err(e), s, [])
    case Ok(None) => Registration(Err(NullReferenceThrown), s, [])
    case Ok(Some(d)) =>
      match EventEntity.Create(d.orderId, req.id, req.eventType, req.date, req.user)
      case Err(e) => Registration(Err(e), s, [])
      case Ok(ev) =>
        match Transition(d, ev, now)
        case Err(e) => Registration(Err(e), s, [])
        case Ok(updated) =>
          var saved := InsertEvent(s, ev, faults.saveEvent);
          var w := [EventInsert(ev.eventId, ev.orderId)];
          if saved.result.Fail? then
            if saved.result.error == DuplicatedId then Registration(Ok(None), saved.state, w)
            else Registration(Err(saved.result.error), saved.state, w)
          else
            var replaced := ReplaceOrder(saved.state, updated, faults.updateOrder);
            var w' := w + [OrderReplace(updated.orderId)];
            if replaced.result.Fail? then Registration(Err(replaced.result.error), replaced.state, w')
            else
              var response := RegisterEventResponse(updated.orderId, d.status, updated.status, updated.updatedOn);
              Registration(Ok(Some(response)), replaced.state, w')
  }

  // ---------------------------------------------------------------------------
  // Properties of the pipeline

  /** A failed or empty order fetch is returned at once: nothing is written. */
  lemma FetchFailureWritesNothing(s: State, orderId: int, req: RegisterEventRequest, now: int,
                                  faults: RegisterEventFaults)
    requires FetchOrder(s, orderId, faults.getOrder).Err? || FetchOrder(s, orderId, faults.getOrder) == Ok(None)
    ensures var r := Register(s, orderId, req, now, faults);
            && r.state == s && r.writes == []
            && (faults.getOrder ==> r.result == Err(GetAsyncGenericError))
            && (!faults.getOrder ==> r.result == Err(NullReferenceThrown))
  {
  }

  /** Stored orders all have positive ids, so the event built from a fetched
      order is never refused for its order id. */
  lemma NeverInvalidOrderId(s: State, orderId: int, req: RegisterEventRequest, now: int,
                            faults: RegisterEventFaults)
    requires forall i :: 0 <= i < |s.orders| ==> s.orders[i].orderId >= 1
    ensures Register(s, orderId, req, now, faults).result != Err(InvalidOrderId)
  {
  }

  /** An invalid event or a transition the order does not allow is reported
      before any write. */
  lemma RejectedBeforeAnyWrite(s: State, orderId: int, req: RegisterEventRequest, now: int,
                               faults: RegisterEventFaults, d: OrderDocument)
    requires FetchOrder(s, orderId, faults.getOrder) == Ok(Some(d))
    ensures var ev := EventEntity.Create(d.orderId, req.id, req.eventType, req.date, req.user);
            var r := Register(s, orderId, req, now, faults);
            && (ev.Err? ==> r == Registration(Err(ev.error), s, []))
            && (ev.Ok? && Transition(d, ev.value, now).Err? ==>
                  && r == Registration(Err(Transition(d, ev.value, now).error), s, [])
                  && r.result in {Err(NextStatusUnavailable), Err(InvalidEventType)})
  {
  }

  /** An event already stored for the order is answered with a bare success;
      the order is not saved again. */
  lemma DuplicateEventIsBareSuccess(s: State, orderId: int, req: RegisterEventRequest, now: int,
                                    faults: RegisterEventFaults, d: OrderDocument, ev: Event)
    requires FetchOrder(s, orderId, faults.getOrder) == Ok(Some(d))
    requires EventEntity.Create(d.orderId, req.id, req.eventType, req.date, req.user) == Ok(ev)
    requires Transition(d, ev, now).Ok?
    requires !faults.saveEvent && EventStored(s.events, ev)
    ensures Register(s, orderId, req, now, faults) == Registration(Ok(None), s, [EventInsert(ev.eventId, ev.orderId)])
  {
  }

  /** Any other failure to save the event is returned as is, and the order is
      not saved. */
  lemma EventSaveErrorPropagated(s: State, orderId: int, req: RegisterEventRequest, now: int,
                                 faults: RegisterEventFaults, d: OrderDocument, ev: Event)
    requires FetchOrder(s, orderId, faults.getOrder) == Ok(Some(d))
    requires EventEntity.Create(d.orderId, req.id, req.eventType, req.date, req.user) == Ok(ev)
    requires Transition(d, ev, now).Ok?
    requires faults.saveEvent
    ensures Register(s, orderId, req, now, faults)
            == Registration(Err(EventsSaveAsyncGenericError), s, [EventInsert(ev.eventId, ev.orderId)])
  {
  }

  /** A new event that is stored, followed by a failing order save, returns
      that save's error; the event stays stored and the order is as it was. */
  lemma OrderSaveErrorPropagated(s: State, orderId: int, req: RegisterEventRequest, now: int,
                                 faults: RegisterEventFaults, d: OrderDocument, ev: Event)
    requires FetchOrder(s, orderId, faults.getOrder) == Ok(Some(d))
    requires EventEntity.Create(d.orderId, req.id, req.eventType, req.date, req.user) == Ok(ev)
    requires Transition(d, ev, now).Ok?
    requires !faults.saveEvent && !EventStored(s.events, ev) && faults.updateOrder
    ensures Register(s, orderId, req, now, faults)
            == Registration(Err(UpdateAsyncGenericError), s.(events := s.events + [ev]),
                            [EventInsert(ev.eventId, ev.orderId), OrderReplace(d.orderId)])
  {
  }

  /** The event is always written before the order, and a failing order save
      leaves the event stored and the order as it was. */
  lemma EventWrittenBeforeOrder(s: State, orderId: int, req: RegisterEventRequest, now: int,
                                faults: RegisterEventFaults)
    ensures var r := Register(s, orderId, req, now, faults);
            && |r.writes| <= 2
            && (forall k :: 0 <= k < |r.writes| && r.writes[k].OrderReplace? ==> k == 1 && r.writes[0].EventInsert?)
            && (r.result == Err(UpdateAsyncGenericError) ==>
                  && |r.writes| == 2
                  && r.state.orders == s.orders
                  && exists ev :: r.state.events == s.events + [ev] && ev.orderId == orderId)
  {
    var r := Register(s, orderId, req, now, faults);
    if r.result == Err(UpdateAsyncGenericError) {
      var d := FetchOrder(s, orderId, faults.getOrder).value.value;
      var ev := EventEntity.Create(d.orderId, req.id, req.eventType, req.date, req.user).value;
      assert r.state.events == s.events + [ev];
    }
  }

  /** A registration succeeds with a response exactly when every step
      passes; the response reports the order's id, its status before and after
      and its new update time, and the order is stored with that new status
      beside the new event. */
  lemma SuccessfulRegistration(s: State, orderId: int, req: RegisterEventRequest, now: int,
                               faults: RegisterEventFaults, d: OrderDocument, ev: Event)
    requires Consistent(s)
    requires FetchOrder(s, orderId, faults.getOrder) == Ok(Some(d))
    requires EventEntity.Create(d.orderId, req.id, req.eventType, req.date, req.user) == Ok(ev)
    ensures var r := Register(s, orderId, req, now, faults);
            var updated := d.(status := MapFromEvent(ev.eventType), updatedOn := UtcAt(now));
            && (r.result.Ok? && r.result.value.Some?
                <==> Allowed(d.status, ev.eventType) && !faults.saveEvent && !EventStored(s.events, ev)
                     && !faults.updateOrder)
            && (r.result.Ok? && r.result.value.Some? ==>
                  && r.result.value.value
                     == RegisterEventResponse(orderId, d.status, MapFromEvent(ev.eventType), UtcAt(now))
                  && r.state.events == s.events + [ev]
                  && r.state.counters == s.counters
                  && |r.state.orders| == |s.orders|
                  && forall i :: 0 <= i < |s.orders| ==>
                       r.state.orders[i] == (if s.orders[i].orderId == orderId then updated else s.orders[i]))
  {
    var r := Register(s, orderId, req, now, faults);
    if Allowed(d.status, ev.eventType) && !faults.saveEvent && !EventStored(s.events, ev) {
      var updated := d.(status := MapFromEvent(ev.eventType), updatedOn := UtcAt(now));
      var saved := InsertEvent(s, ev, false);
      assert forall i :: 0 <= i < |saved.state.orders| && saved.state.orders[i].orderId == updated.orderId
                         ==> SameReference(saved.state.orders[i], updated);
    }
  }

  /** No event type leads from the status it produces back through the table:
      the same event cannot be applied twice in a row. */
  lemma {:induction false} NoRepeatedTransition(t: EventType)
    ensures !Allowed(MapFromEvent(t), t)
  {
    match t
    case PaymentReceived =>
      assert ValidStatusesTransitions[OrderStatus.PaymentReceived] == [EventType.Invoiced];
    case Canceled =>
    case Invoiced =>
      assert ValidStatusesTransitions[OrderStatus.Invoiced] == [EventType.Returned];
    case Returned =>
  }

  /** Retrying a registration that succeeded does not answer success again:
      the order has already moved on, so the transition check refuses the
      event before the duplicate is ever looked up, and nothing is written. */
  lemma RetryAfterSuccessIsRefused(s: State, orderId: int, req: RegisterEventRequest, now: int,
                                   faults: RegisterEventFaults, later: int, retryFaults: RegisterEventFaults)
    requires Consistent(s)
    requires Register(s, orderId, req, now, faults).result.Ok?
    requires Register(s, orderId, req, now, faults).result.value.Some?
    requires !retryFaults.getOrder
    ensures var first := Register(s, orderId, req, now, faults);
            var retry := Register(first.state, orderId, req, later, retryFaults);
            && retry.result in {Err(InvalidEventType), Err(NextStatusUnavailable)}
            && retry.state == first.state && retry.writes == []
  {
    var first := Register(s, orderId, req, now, faults);
    var d := FetchOrder(s, orderId, faults.getOrder).value.value;
    var ev := EventEntity.Create(d.orderId, req.id, req.eventType, req.date, req.user).value;
    SuccessfulRegistration(s, orderId, req, now, faults, d, ev);
    var updated := d.(status := MapFromEvent(ev.eventType), updatedOn := UtcAt(now));
    var k := IndexOf(s.orders, orderId);
    assert first.state.orders[k] == updated;
    assert FetchOrder(first.state, orderId, false) == Ok(Some(updated));
    NoRepeatedTransition(ev.eventType);
  }

  /** Retrying a registration whose order save failed answers a bare success
      and still leaves the order unchanged: the event is already stored, so
      the order is never brought up to date by a retry. */
  lemma RetryAfterOrderSaveFailureLeavesOrderBehind(s: State, orderId: int, req: RegisterEventRequest,
                                                    now: int, faults: RegisterEventFaults, later: int)
    requires Consistent(s)
    requires Register(s, orderId, req, now, faults).result == Err(UpdateAsyncGenericError)
    ensures var first := Register(s, orderId, req, now, faults);
            var retry := Register(first.state, orderId, req, later, NoFaults);
            && first.state.orders == s.orders
            && retry.result == Ok(None) && retry.state == first.state
  {
    var first := Register(s, orderId, req, now, faults);
    var d := FetchOrder(s, orderId, faults.getOrder).value.value;
    var ev := EventEntity.Create(d.orderId, req.id, req.eventType, req.date, req.user).value;
    assert first.state == s.(events := s.events + [ev]);
    assert FetchOrder(first.state, orderId, false) == Ok(Some(d));
    assert EventStored(first.state.events, ev) by {
      assert SameEvent(first.state.events[|s.events|], ev);
    }
  }

  // ---------------------------------------------------------------------------
  // The service

  class EventsService {
    const store: Store

    constructor (store: Store)
      ensures this.store == store
    {
      this.store := store;
    }

    /** `RegisterEvent`: the fetched order object is updated in place and then
        written back. */
    method RegisterEvent(orderId: int, req: RegisterEventRequest, now: int, faults: RegisterEventFaults)
      returns (r: Result<Option<RegisterEventResponse>>)
      modifies store
      ensures var run := Register(old(store.Stored()), orderId, req, now, faults);
              && r == run.result && store.Stored() == run.state
              && store.writes == old(store.writes) + run.writes
    {
      var orderResult := store.GetAsync(orderId, faults.getOrder);
      if orderResult.Err? {
        return Err(orderResult.error);
      }
      if orderResult.value.None? {
        // the source dereferences the missing order
        return Err(NullReferenceThrown);
      }
      var order := orderResult.value.value;
      var newEvent := EventEntity.Create(order.orderId, req.id, req.eventType, req.date, req.user);
      if newEvent.Err? {
        return Err(newEvent.error);
      }
      var updateOrderResult := order.Update(newEvent.value, now);
      if updateOrderResult.Err? {
        return Err(updateOrderResult.error);
      }
      var saveEventResult := store.SaveEventAsync(newEvent.value, faults.saveEvent);
      if saveEventResult.Fail? {
        if saveEventResult.error == DuplicatedId {
          return Ok(None);
        }
        return Err(saveEventResult.error);
      }
      var saveOrderResult := store.UpdateAsync(order, faults.updateOrder);
      if saveOrderResult.Fail? {
        return Err(saveOrderResult.error);
      }
      return Ok(Some(RegisterEventResponse(order.orderId, updateOrderResult.value, order.status, order.updatedOn)));
    }
  }
}

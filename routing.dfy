/**
 * How the two services' configurations fit together on the shared topic
 * exchange: every message one side publishes is delivered to exactly one
 * queue of the other side, whose listener takes exactly that event class,
 * and to no queue of its own side.
 */
module Routing {
  import opened Events
  import opened Amqp
  import opened BookingModel
  import FlightRabbitConfig
  import BookingRabbitConfig
  import FlightPub = FlightEventPublisher
  import BookingPub = BookingEventPublisher
  import FlightListener = FlightEventListener
  import BookingListener = BookingEventListener
  import FlightModel
  import BookingRepository
  import FS = FlightService
  import BS = BookingService

  /** m reaches one queue under the bindings, and that queue's listener takes m's event class. */
  predicate DeliveredOnce(bindings: seq<Binding>, listeners: map<string, EventClass>, m: Message) {
    var queues := Route(bindings, m.exchange, m.routingKey);
    |queues| == 1 && forall q :: q in queues ==> q in listeners && listeners[q] == ClassOf(m.event)
  }

  /** A reply of the flight service reaches one booking-side listener and no flight-side queue. */
  predicate FlightReplyRoutes(m: Message) {
    && DeliveredOnce(BookingRabbitConfig.Bindings, BookingListener.Listeners, m)
    && Route(FlightRabbitConfig.Bindings, m.exchange, m.routingKey) == {}
  }

  /** A booking event reaches one flight-side listener and no booking-side queue. */
  predicate BookingEventRoutes(m: Message) {
    && DeliveredOnce(FlightRabbitConfig.Bindings, FlightListener.Listeners, m)
    && Route(BookingRabbitConfig.Bindings, m.exchange, m.routingKey) == {}
  }

  /** No "flight." key is bound on the flight side. */
  lemma FlightKeysMissFlightSide(key: string)
    requires "flight." <= key
    ensures Route(FlightRabbitConfig.Bindings, FlightRabbitConfig.EXCHANGE, key) == {}
  {
    FlightRabbitConfig.BindingsAreBookingKeys();
    forall i | 0 <= i < |FlightRabbitConfig.Bindings|
      ensures FlightRabbitConfig.Bindings[i].pattern != key
    {
      assert FlightRabbitConfig.Bindings[i].pattern[0] == 'b' != key[0];
    }
  }

  /** No "booking." key is bound on the booking side. */
  lemma BookingKeysMissBookingSide(key: string)
    requires "booking." <= key
    ensures Route(BookingRabbitConfig.Bindings, BookingRabbitConfig.EXCHANGE, key) == {}
  {
    BookingRabbitConfig.BindingsAreFlightKeys();
    forall i | 0 <= i < |BookingRabbitConfig.Bindings|
      ensures BookingRabbitConfig.Bindings[i].pattern != key
    {
      assert BookingRabbitConfig.Bindings[i].pattern[0] == 'f' != key[0];
    }
  }

  /** A key bound at exactly one position of the bindings routes to that position's queue alone. */
  lemma RouteUnique(bindings: seq<Binding>, exchange: string, i: int)
    requires 0 <= i < |bindings| && bindings[i].exchange == exchange
    requires forall j :: 0 <= j < |bindings| && j != i ==> bindings[j].pattern != bindings[i].pattern
    ensures Route(bindings, exchange, bindings[i].pattern) == {bindings[i].queue}
  {
    var r := Route(bindings, exchange, bindings[i].pattern);
    assert bindings[i] == Binding(bindings[i].queue, exchange, bindings[i].pattern);
    forall q | q in r ensures q == bindings[i].queue {
      var j :| 0 <= j < |bindings| && bindings[j] == Binding(q, exchange, bindings[i].pattern);
    }
  }

  /** The event class each booking-side binding's listener takes, position by position. */
  const BookingSideClasses: seq<EventClass> := [
    FlightCancelledClass, BookingConfirmedClass, BookingRejectedClass,
    BookingUpdateConfirmedClass, BookingUpdateRejectedClass
  ]

  /** The event class each flight-side binding's listener takes, position by position. */
  const FlightSideClasses: seq<EventClass> := [BookingCreatedClass, BookingCancelledClass, BookingUpdatedClass]

  /** Every booking-side binding leads to a queue with a listener, of the class at its position. */
  lemma BookingListenersMatchBindings(i: int)
    requires 0 <= i < |BookingRabbitConfig.Bindings|
    ensures BookingRabbitConfig.Bindings[i].queue in BookingListener.Listeners
    ensures BookingListener.Listeners[BookingRabbitConfig.Bindings[i].queue] == BookingSideClasses[i]
  {
  }

  /** Every flight-side binding leads to a queue with a listener, of the class at its position. */
  lemma FlightListenersMatchBindings(i: int)
    requires 0 <= i < |FlightRabbitConfig.Bindings|
    ensures FlightRabbitConfig.Bindings[i].queue in FlightListener.Listeners
    ensures FlightListener.Listeners[FlightRabbitConfig.Bindings[i].queue] == FlightSideClasses[i]
  {
  }

  /** The booking-side binding at position i delivers to the listener at its queue. */
  lemma BookingSideDelivers(i: int, m: Message)
    requires 0 <= i < |BookingRabbitConfig.Bindings|
    requires m.exchange == BookingRabbitConfig.EXCHANGE
    requires m.routingKey == BookingRabbitConfig.Bindings[i].pattern
    requires ClassOf(m.event) == BookingSideClasses[i]
    ensures FlightReplyRoutes(m)
  {
    BookingListenersMatchBindings(i);
    BookingRabbitConfig.QueuesDeclared();
    RouteUnique(BookingRabbitConfig.Bindings, m.exchange, i);
    BookingRabbitConfig.BindingsAreFlightKeys();
    FlightKeysMissFlightSide(m.routingKey);
  }

  /** The flight-side binding at position i delivers to the listener at its queue. */
  lemma FlightSideDelivers(i: int, m: Message)
    requires 0 <= i < |FlightRabbitConfig.Bindings|
    requires m.exchange == FlightRabbitConfig.EXCHANGE
    requires m.routingKey == FlightRabbitConfig.Bindings[i].pattern
    requires ClassOf(m.event) == FlightSideClasses[i]
    ensures BookingEventRoutes(m)
  {
    FlightListenersMatchBindings(i);
    FlightRabbitConfig.QueuesDeclared();
    RouteUnique(FlightRabbitConfig.Bindings, m.exchange, i);
    FlightRabbitConfig.BindingsAreBookingKeys();
    BookingKeysMissBookingSide(m.routingKey);
  }

  // One lemma per flight reply: each reaches the booking listener for its class.

  lemma FlightCancelledRoutes(flightId: int)
    ensures FlightReplyRoutes(FlightPub.FlightCancelledMessage(flightId))
  {
    BookingSideDelivers(0, FlightPub.FlightCancelledMessage(flightId));
  }

  lemma BookingConfirmedRoutes(created: Event)
    requires created.BookingCreated?
    ensures FlightReplyRoutes(FlightPub.BookingConfirmedMessage(created))
  {
    BookingSideDelivers(1, FlightPub.BookingConfirmedMessage(created));
  }

  lemma BookingRejectedRoutes(created: Event)
    requires created.BookingCreated?
    ensures FlightReplyRoutes(FlightPub.BookingRejectedMessage(created))
  {
    BookingSideDelivers(2, FlightPub.BookingRejectedMessage(created));
  }

  lemma BookingUpdateConfirmedRoutes(updated: Event)
    requires updated.BookingUpdated?
    ensures FlightReplyRoutes(FlightPub.BookingUpdateConfirmedMessage(updated))
  {
    BookingSideDelivers(3, FlightPub.BookingUpdateConfirmedMessage(updated));
  }

  lemma BookingUpdateRejectedRoutes(updated: Event)
    requires updated.BookingUpdated?
    ensures FlightReplyRoutes(FlightPub.BookingUpdateRejectedMessage(updated))
  {
    BookingSideDelivers(4, FlightPub.BookingUpdateRejectedMessage(updated));
  }

  // One lemma per booking event: each reaches the flight listener for its class.

  lemma BookingCreatedRoutes(b: Booking)
    ensures BookingEventRoutes(BookingPub.BookingCreatedMessage(b))
  {
    FlightSideDelivers(0, BookingPub.BookingCreatedMessage(b));
  }

  lemma BookingCancelledRoutes(b: Booking)
    ensures BookingEventRoutes(BookingPub.BookingCancelledMessage(b))
  {
    FlightSideDelivers(1, BookingPub.BookingCancelledMessage(b));
  }

  lemma BookingUpdatedRoutes(bookingId: int, flightId: int, current: int, new_: int)
    ensures BookingEventRoutes(BookingPub.BookingUpdatedMessage(bookingId, flightId, current, new_))
  {
    FlightSideDelivers(2, BookingPub.BookingUpdatedMessage(bookingId, flightId, current, new_));
  }

  /** Every reply a flight listener's handler sends, whatever its outcome, reaches the booking side. */
  lemma FlightHandlerRepliesRoute(rows: map<int, FlightModel.FlightRecord>, e: Event, now: int)
    requires ClassOf(e) in FlightListener.Listeners.Values
    ensures forall m :: m in FlightListener.HandlerEffect(rows, e, now).sent ==> FlightReplyRoutes(m)
  {
    var sent := FlightListener.HandlerEffect(rows, e, now).sent;
    forall m | m in sent ensures FlightReplyRoutes(m) {
      if e.BookingCreated? {
        ReserveRepliesRoute(rows, e, now, m);
      } else if e.BookingUpdated? {
        UpdateRepliesRoute(rows, e, now, m);
      }
    }
  }

  lemma ReserveRepliesRoute(rows: map<int, FlightModel.FlightRecord>, e: Event, now: int, m: Message)
    requires e.BookingCreated? && m in FS.ReserveEffect(rows, e, now).sent
    ensures FlightReplyRoutes(m)
  {
    if rows[e.flightId].passengerCount >= e.passengerCount {
      assert m == FlightPub.BookingConfirmedMessage(e);
      BookingConfirmedRoutes(e);
    } else {
      assert m == FlightPub.BookingRejectedMessage(e);
      BookingRejectedRoutes(e);
    }
  }

  lemma UpdateRepliesRoute(rows: map<int, FlightModel.FlightRecord>, e: Event, now: int, m: Message)
    requires e.BookingUpdated? && m in FS.UpdateBookingOnFlightEffect(rows, e, now).sent
    ensures FlightReplyRoutes(m)
  {
    if FS.UpdateAccepted(rows[e.flightId].passengerCount, FS.Change(e)) {
      assert m == FlightPub.BookingUpdateConfirmedMessage(e);
      BookingUpdateConfirmedRoutes(e);
    } else {
      assert m == FlightPub.BookingUpdateRejectedMessage(e);
      BookingUpdateRejectedRoutes(e);
    }
  }

  /** The broadcast of a deleted flight reaches the booking side. */
  lemma DeleteBroadcastRoutes(rows: map<int, FlightModel.FlightRecord>, id: int)
    ensures forall m :: m in FS.DeleteEffect(rows, id).sent ==> FlightReplyRoutes(m)
  {
    FlightCancelledRoutes(id);
  }

  // Every event the booking service's create, update and cancel send reaches the flight side.

  lemma CreateEventRoutes(rows: map<int, Booking>, id: int, request: Booking, now: int)
    requires id !in rows
    ensures forall m :: m in BS.CreateEffect(rows, id, request, now).2 ==> BookingEventRoutes(m)
  {
    BookingCreatedRoutes(BS.NewBooking(request, id, now));
  }

  lemma UpdateEventRoutes(rows: map<int, Booking>, request: Booking, now: int)
    requires BookingRepository.KeyedById(rows)
    ensures forall m :: m in BS.UpdateEffect(rows, request, now).2 ==> BookingEventRoutes(m)
  {
    if request.id in rows {
      var old_ := rows[request.id];
      BookingUpdatedRoutes(request.id, old_.flightId, old_.passengerCount, request.passengerCount);
    }
  }

  lemma CancelEventRoutes(rows: map<int, Booking>, id: int)
    ensures forall m :: m in BS.CancelEffect(rows, id).sent ==> BookingEventRoutes(m)
  {
    if id in rows {
      BookingCancelledRoutes(rows[id]);
    }
  }

  /** A routed reply is one the booking side's dispatch accepts. */
  lemma RoutedReplyIsHandled(m: Message)
    requires FlightReplyRoutes(m)
    ensures ClassOf(m.event) in BookingListener.Listeners.Values
  {
    var queues := Route(BookingRabbitConfig.Bindings, m.exchange, m.routingKey);
    assert |queues| == 1;
    var q :| q in queues;
    assert BookingListener.Listeners[q] == ClassOf(m.event);
  }

  /** A routed booking event is one the flight side's dispatch accepts. */
  lemma RoutedEventIsHandled(m: Message)
    requires BookingEventRoutes(m)
    ensures ClassOf(m.event) in FlightListener.Listeners.Values
  {
    var queues := Route(FlightRabbitConfig.Bindings, m.exchange, m.routingKey);
    assert |queues| == 1;
    var q :| q in queues;
    assert FlightListener.Listeners[q] == ClassOf(m.event);
  }
}

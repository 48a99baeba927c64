/**
 * The booking service's consumers: one listener per inbound queue, each
 * calling one service handler and then settling the delivery on its channel.
 */
module BookingEventListener {
  import opened Wrappers
  import opened Events
  import opened Amqp
  import opened BookingModel
  import opened BookingRepository
  import BookingRabbitConfig
  import BS = BookingService

  /** The parameter class of the listener on each queue. */
  const Listeners: map<string, EventClass> := map[
    BookingRabbitConfig.BOOKING_CONFIRMED_QUEUE := BookingConfirmedClass,
    BookingRabbitConfig.BOOKING_REJECTED_QUEUE := BookingRejectedClass,
    BookingRabbitConfig.FLIGHT_CANCELLED_QUEUE := FlightCancelledClass,
    BookingRabbitConfig.BOOKING_UPDATE_CONFIRMED_QUEUE := BookingUpdateConfirmedClass,
    BookingRabbitConfig.BOOKING_UPDATE_REJECTED_QUEUE := BookingUpdateRejectedClass
  ]

  /** Every registered listener takes one of the five flight events. */
  lemma ListenerClasses(queue: string)
    requires queue in Listeners
    ensures Listeners[queue] in {BookingConfirmedClass, BookingRejectedClass, FlightCancelledClass,
                                 BookingUpdateConfirmedClass, BookingUpdateRejectedClass}
    ensures Listeners[queue] in Listeners.Values
  {
  }

  /** The service handler a listener calls for an event its queue carries. */
  function HandlerEffect(rows: map<int, Booking>, e: Event, now: int): (r: BS.BookingEffect)
    requires KeyedById(rows) && ClassOf(e) in Listeners.Values
    ensures e.BookingConfirmed? ==> r == BS.ConfirmEffect(rows, e.bookingId, now)
    ensures e.BookingRejected? ==> r == BS.RejectEffect(rows, Some(e))
    ensures e.FlightCancelled? ==> r == BS.CancelBookingsOnFlightEffect(rows, e)
    ensures e.BookingUpdateConfirmed? ==> r == BS.ConfirmEffect(rows, e.bookingId, now)
    ensures e.BookingUpdateRejected? ==> r == BS.RejectBookingUpdateEffect(rows, e, now)
    ensures r.sent == []
  {
    match e
    case BookingConfirmed(_) => BS.ConfirmEffect(rows, e.bookingId, now)
    case BookingRejected(_) => BS.RejectEffect(rows, Some(e))
    case FlightCancelled(_) => BS.CancelBookingsOnFlightEffect(rows, e)
    case BookingUpdateConfirmed(_, _) => BS.ConfirmEffect(rows, e.bookingId, now)
    case BookingUpdateRejected(_, _, _, _) => BS.RejectBookingUpdateEffect(rows, e, now)
    case _ => assert false; BS.BookingEffect(Normal, rows, [])
  }

  class BookingEventListener {
    const service: BS.BookingService

    constructor (service: BS.BookingService)
      ensures this.service == service
    {
      this.service := service;
    }

    ghost predicate Valid()
      reads this, service, service.repository
    {
      service.Valid()
    }

    /** handleBookingConfirmed: confirmBooking, then ack or nack-without-requeue. */
    method HandleBookingConfirmed(e: Event, deliveryTag: int, channel: Channel, now: int) returns (outcome: Outcome)
      requires e.BookingConfirmed? && Valid()
      modifies service.repository, channel
      ensures Valid()
      ensures var eff := BS.ConfirmEffect(old(service.repository.rows), e.bookingId, now);
              outcome == eff.outcome && service.repository.rows == eff.rows
      ensures channel.calls == old(channel.calls) + [Settlement(outcome, deliveryTag)]
    {
      outcome := service.ConfirmBooking(e, now);
      channel.Settle(outcome, deliveryTag);
    }

    /** handleBookingRejected: reject, then ack (reject does not throw). */
    method HandleBookingRejected(e: Event, deliveryTag: int, channel: Channel) returns (outcome: Outcome)
      requires e.BookingRejected? && Valid()
      modifies service.repository, channel
      ensures Valid()
      ensures var eff := BS.RejectEffect(old(service.repository.rows), Some(e));
              outcome == eff.outcome && service.repository.rows == eff.rows
      ensures channel.calls == old(channel.calls) + [Settlement(outcome, deliveryTag)]
    {
      service.Reject(Some(e));
      outcome := Normal;
      channel.Settle(outcome, deliveryTag);
    }

    /** handleFlightCancelled: cancelBookingsOnFlight, then ack (it does not throw). */
    method HandleFlightCancelled(e: Event, deliveryTag: int, channel: Channel) returns (outcome: Outcome)
      requires e.FlightCancelled? && Valid()
      modifies service.repository, channel
      ensures Valid()
      ensures var eff := BS.CancelBookingsOnFlightEffect(old(service.repository.rows), e);
              outcome == eff.outcome && service.repository.rows == eff.rows
      ensures channel.calls == old(channel.calls) + [Settlement(outcome, deliveryTag)]
    {
      service.CancelBookingsOnFlight(e);
      outcome := Normal;
      channel.Settle(outcome, deliveryTag);
    }

    /** handleBookingUpdate: confirmBookingUpdate, then ack or nack-without-requeue. */
    method HandleBookingUpdateConfirmed(e: Event, deliveryTag: int, channel: Channel, now: int) returns (outcome: Outcome)
      requires e.BookingUpdateConfirmed? && Valid()
      modifies service.repository, channel
      ensures Valid()
      ensures var eff := BS.ConfirmEffect(old(service.repository.rows), e.bookingId, now);
              outcome == eff.outcome && service.repository.rows == eff.rows
      ensures channel.calls == old(channel.calls) + [Settlement(outcome, deliveryTag)]
    {
      outcome := service.ConfirmBookingUpdate(e, now);
      channel.Settle(outcome, deliveryTag);
    }

    /** The second handleFlightCancelled, on the update-rejected queue: rejectBookingUpdate, then settle. */
    method HandleBookingUpdateRejected(e: Event, deliveryTag: int, channel: Channel, now: int) returns (outcome: Outcome)
      requires e.BookingUpdateRejected? && Valid()
      modifies service.repository, channel
      ensures Valid()
      ensures var eff := BS.RejectBookingUpdateEffect(old(service.repository.rows), e, now);
              outcome == eff.outcome && service.repository.rows == eff.rows
      ensures channel.calls == old(channel.calls) + [Settlement(outcome, deliveryTag)]
    {
      outcome := service.RejectBookingUpdate(e, now);
      channel.Settle(outcome, deliveryTag);
    }

    /** A delivery on a queue reaches the listener registered for it; none of them publishes. */
    method Deliver(queue: string, e: Event, deliveryTag: int, channel: Channel, now: int) returns (outcome: Outcome)
      requires queue in Listeners && ClassOf(e) == Listeners[queue] && Valid()
      modifies service.repository, channel
      ensures Valid()
      ensures var eff := HandlerEffect(old(service.repository.rows), e, now);
              outcome == eff.outcome && service.repository.rows == eff.rows
      ensures channel.calls == old(channel.calls) + [Settlement(outcome, deliveryTag)]
    {
      var parameterClass := Listeners[queue];
      ListenerClasses(queue);
      if parameterClass == BookingConfirmedClass {
        outcome := HandleBookingConfirmed(e, deliveryTag, channel, now);
      } else if parameterClass == BookingRejectedClass {
        outcome := HandleBookingRejected(e, deliveryTag, channel);
      } else if parameterClass == FlightCancelledClass {
        outcome := HandleFlightCancelled(e, deliveryTag, channel);
      } else if parameterClass == BookingUpdateConfirmedClass {
        outcome := HandleBookingUpdateConfirmed(e, deliveryTag, channel, now);
      } else {
        outcome := HandleBookingUpdateRejected(e, deliveryTag, channel, now);
      }
    }
  }
}

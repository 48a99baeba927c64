/**
 * The flight service's consumers: one listener per inbound queue, each
 * calling one service handler and then settling the delivery on its channel.
 */
module FlightEventListener {
  import opened Wrappers
  import opened Events
  import opened Amqp
  import opened FlightModel
  import FlightRabbitConfig
  import FS = FlightService

  /** The parameter class of the listener on each queue. */
  const Listeners: map<string, EventClass> := map[
    FlightRabbitConfig.BOOKING_CREATED_QUEUE := BookingCreatedClass,
    FlightRabbitConfig.BOOKING_UPDATED_QUEUE := BookingUpdatedClass,
    FlightRabbitConfig.BOOKING_CANCELLED_QUEUE := BookingCancelledClass
  ]

  /** The service handler a listener calls for an event its queue carries. */
  function HandlerEffect(rows: map<int, FlightRecord>, e: Event, now: int): (r: FS.FlightEffect)
    requires ClassOf(e) in Listeners.Values
    ensures e.BookingCreated? ==> r == FS.ReserveEffect(rows, e, now)
    ensures e.BookingUpdated? ==> r == FS.UpdateBookingOnFlightEffect(rows, e, now)
    ensures e.BookingCancelled? ==> r == FS.CancelReservationEffect(rows, e, now)
  {
    match e
    case BookingCreated(_, _, _) => FS.ReserveEffect(rows, e, now)
    case BookingUpdated(_, _, _, _) => FS.UpdateBookingOnFlightEffect(rows, e, now)
    case BookingCancelled(_, _) => FS.CancelReservationEffect(rows, e, now)
    case _ => assert false; FS.FlightEffect(Normal, rows, [])
  }

  /** Every registered listener takes one of the three booking events. */
  lemma ListenerClasses(queue: string)
    requires queue in Listeners
    ensures Listeners[queue] in {BookingCreatedClass, BookingUpdatedClass, BookingCancelledClass}
    ensures Listeners[queue] in Listeners.Values
  {
  }

  class FlightEventListener {
    const service: FS.FlightService

    constructor (service: FS.FlightService)
      ensures this.service == service
    {
      this.service := service;
    }

    ghost predicate Valid()
      reads this, service, service.repository
    {
      service.Valid()
    }

    /** handleBookingCreated: reserve, then ack or nack-without-requeue. */
    method HandleBookingCreated(e: Event, deliveryTag: int, channel: Channel, now: int) returns (outcome: Outcome)
      requires e.BookingCreated? && Valid()
      modifies service.repository, service.publisher, channel
      ensures Valid()
      ensures var eff := FS.ReserveEffect(old(service.repository.rows), e, now);
              && outcome == eff.outcome && service.repository.rows == eff.rows
              && service.publisher.sent == old(service.publisher.sent) + eff.sent
      ensures channel.calls == old(channel.calls) + [Settlement(outcome, deliveryTag)]
    {
      outcome := service.Reserve(e, now);
      channel.Settle(outcome, deliveryTag);
    }

    /** handleBookingUpdated: updateBookingOnFlight, then ack or nack-without-requeue. */
    method HandleBookingUpdated(e: Event, deliveryTag: int, channel: Channel, now: int) returns (outcome: Outcome)
      requires e.BookingUpdated? && Valid()
      modifies service.repository, service.publisher, channel
      ensures Valid()
      ensures var eff := FS.UpdateBookingOnFlightEffect(old(service.repository.rows), e, now);
              && outcome == eff.outcome && service.repository.rows == eff.rows
              && service.publisher.sent == old(service.publisher.sent) + eff.sent
      ensures channel.calls == old(channel.calls) + [Settlement(outcome, deliveryTag)]
    {
      outcome := service.UpdateBookingOnFlight(e, now);
      channel.Settle(outcome, deliveryTag);
    }

    /** handleBookingCancelled: cancelReservation, then ack or nack-without-requeue. */
    method HandleBookingCancelled(e: Event, deliveryTag: int, channel: Channel, now: int) returns (outcome: Outcome)
      requires e.BookingCancelled? && Valid()
      modifies service.repository, channel
      ensures Valid()
      ensures var eff := FS.CancelReservationEffect(old(service.repository.rows), e, now);
              && outcome == eff.outcome && service.repository.rows == eff.rows
              && service.publisher.sent == old(service.publisher.sent) + eff.sent
      ensures channel.calls == old(channel.calls) + [Settlement(outcome, deliveryTag)]
    {
      outcome := service.CancelReservation(e, now);
      channel.Settle(outcome, deliveryTag);
    }

    /** A delivery on a queue reaches the listener registered for it. */
    method Deliver(queue: string, e: Event, deliveryTag: int, channel: Channel, now: int) returns (outcome: Outcome)
      requires queue in Listeners && ClassOf(e) == Listeners[queue] && Valid()
      modifies service.repository, service.publisher, channel
      ensures Valid()
      ensures var eff := HandlerEffect(old(service.repository.rows), e, now);
              && outcome == eff.outcome && service.repository.rows == eff.rows
              && service.publisher.sent == old(service.publisher.sent) + eff.sent
      ensures channel.calls == old(channel.calls) + [Settlement(outcome, deliveryTag)]
    {
      var parameterClass := Listeners[queue];
      ListenerClasses(queue);
      if parameterClass == BookingCreatedClass {
        outcome := HandleBookingCreated(e, deliveryTag, channel, now);
      } else if parameterClass == BookingUpdatedClass {
        outcome := HandleBookingUpdated(e, deliveryTag, channel, now);
      } else {
        outcome := HandleBookingCancelled(e, deliveryTag, channel, now);
      }
    }
  }
}

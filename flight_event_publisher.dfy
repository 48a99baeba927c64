/**
 * The flight service's outbound side: each publish method builds one reply
 * event and sends it to the shared exchange under a fixed "flight." key.
 * Sending is modelled as appending the message to the publisher's outbox.
 */
module FlightEventPublisher {
  import opened Events
  import FlightRabbitConfig
  import Factory = FlightEventFactory

  const BOOKING_CONFIRMED_KEY := "flight.booking-confirmed"
  const BOOKING_REJECTED_KEY := "flight.booking-rejected"
  const BOOKING_UPDATE_CONFIRMED_KEY := "flight.booking-update-confirmed"
  const BOOKING_UPDATE_REJECTED_KEY := "flight.booking-update-rejected"
  const FLIGHT_CANCELLED_KEY := "flight.cancelled"

  /** The reply to a BookingCreated whose seats were reserved. */
  function BookingConfirmedMessage(created: Event): Message
    requires created.BookingCreated?
  {
    Message(FlightRabbitConfig.EXCHANGE, BOOKING_CONFIRMED_KEY,
            Factory.BookingConfirmed(created.bookingId, created.flightId))
  }

  /** The reply to a BookingCreated that did not fit. */
  function BookingRejectedMessage(created: Event): Message
    requires created.BookingCreated?
  {
    Message(FlightRabbitConfig.EXCHANGE, BOOKING_REJECTED_KEY, Factory.BookingRejected(created.bookingId))
  }

  /** The reply to an accepted BookingUpdated. */
  function BookingUpdateConfirmedMessage(updated: Event): Message
    requires updated.BookingUpdated?
  {
    Message(FlightRabbitConfig.EXCHANGE, BOOKING_UPDATE_CONFIRMED_KEY,
            Factory.BookingUpdateConfirmed(updated.bookingId, updated.flightId))
  }

  /** The reply to a refused BookingUpdated; it echoes the current and new counts. */
  function BookingUpdateRejectedMessage(updated: Event): Message
    requires updated.BookingUpdated?
  {
    Message(FlightRabbitConfig.EXCHANGE, BOOKING_UPDATE_REJECTED_KEY,
            Factory.BookingUpdateRejected(updated.bookingId, updated.flightId,
                                          updated.currentPassengerCount, updated.newPassengerCount))
  }

  /** The broadcast that a flight is deleted. */
  function FlightCancelledMessage(flightId: int): Message {
    Message(FlightRabbitConfig.EXCHANGE, FLIGHT_CANCELLED_KEY, Factory.FlightCancelled(flightId))
  }

  class FlightEventPublisher {
    /** Every message sent so far, in order. */
    var sent: seq<Message>

    constructor ()
      ensures sent == []
    {
      sent := [];
    }

    method PublishBookingConfirmed(event: Event)
      requires event.BookingCreated?
      modifies this
      ensures sent == old(sent) + [BookingConfirmedMessage(event)]
    {
      sent := sent + [BookingConfirmedMessage(event)];
    }

    method PublishBookingRejected(event: Event)
      requires event.BookingCreated?
      modifies this
      ensures sent == old(sent) + [BookingRejectedMessage(event)]
    {
      sent := sent + [BookingRejectedMessage(event)];
    }

    method PublishBookingUpdateConfirmed(event: Event)
      requires event.BookingUpdated?
      modifies this
      ensures sent == old(sent) + [BookingUpdateConfirmedMessage(event)]
    {
      sent := sent + [BookingUpdateConfirmedMessage(event)];
    }

    method PublishBookingUpdateRejected(event: Event)
      requires event.BookingUpdated?
      modifies this
      ensures sent == old(sent) + [BookingUpdateRejectedMessage(event)]
    {
      sent := sent + [BookingUpdateRejectedMessage(event)];
    }

    method PublishFlightCancelled(flightId: int)
      modifies this
      ensures sent == old(sent) + [FlightCancelledMessage(flightId)]
    {
      sent := sent + [FlightCancelledMessage(flightId)];
    }
  }
}

/**
 * The booking service's outbound side: each publish method builds one
 * booking event and sends it to the shared exchange under a fixed
 * "booking." key, modelled as appending to the publisher's outbox.
 */
module BookingEventPublisher {
  import opened Events
  import opened BookingModel
  import BookingRabbitConfig
  import Factory = BookingEventFactory

  const BOOKING_CREATED_KEY := "booking.created"
  const BOOKING_CANCELLED_KEY := "booking.cancelled"
  const BOOKING_UPDATED_KEY := "booking.updated"

  function BookingCreatedMessage(b: Booking): Message {
    Message(BookingRabbitConfig.EXCHANGE, BOOKING_CREATED_KEY, Factory.Created(b))
  }

  function BookingCancelledMessage(b: Booking): Message {
    Message(BookingRabbitConfig.EXCHANGE, BOOKING_CANCELLED_KEY, Factory.BookingCancelled(b))
  }

  function BookingUpdatedMessage(bookingId: int, flightId: int, currentPassengerCount: int, newPassengerCount: int): Message {
    Message(BookingRabbitConfig.EXCHANGE, BOOKING_UPDATED_KEY,
            Factory.BookingUpdated(bookingId, flightId, currentPassengerCount, newPassengerCount))
  }

  class BookingEventPublisher {
    /** Every message sent so far, in order. */
    var sent: seq<Message>

    constructor ()
      ensures sent == []
    {
      sent := [];
    }

    method PublishBookingCreated(b: Booking)
      modifies this
      ensures sent == old(sent) + [BookingCreatedMessage(b)]
    {
      sent := sent + [BookingCreatedMessage(b)];
    }

    method PublishBookingCancelled(b: Booking)
      modifies this
      ensures sent == old(sent) + [BookingCancelledMessage(b)]
    {
      sent := sent + [BookingCancelledMessage(b)];
    }

    method PublishBookingUpdated(bookingId: int, flightId: int, currentPassengerCount: int, newPassengerCount: int)
      modifies this
      ensures sent == old(sent) + [BookingUpdatedMessage(bookingId, flightId, currentPassengerCount, newPassengerCount)]
    {
      sent := sent + [BookingUpdatedMessage(bookingId, flightId, currentPassengerCount, newPassengerCount)];
    }
  }
}

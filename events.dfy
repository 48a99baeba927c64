/**
 * The saga's event vocabulary: one constructor per event class of the shared
 * models package, and the message the transport carries.
 */
module Events {
  import opened Wrappers

  /**
   * Every event that crosses between the two services. Ids are database ids;
   * counts are seat counts, not constrained to any range. BookingConfirmed
   * carries only the booking id, because its factory drops the flight id.
   * FlightCancelled's flight id may be null; the booking side tests for that.
   */
  datatype Event =
    | BookingCreated(bookingId: int, flightId: int, passengerCount: int)
    | BookingCancelled(flightId: int, passengerCount: int)
    | BookingUpdated(bookingId: int, flightId: int, currentPassengerCount: int, newPassengerCount: int)
    | BookingConfirmed(bookingId: int)
    | BookingRejected(bookingId: int)
    | BookingUpdateConfirmed(bookingId: int, flightId: int)
    | BookingUpdateRejected(bookingId: int, flightId: int, currentPassengerCount: int, newPassengerCount: int)
    | FlightCancelled(cancelledFlightId: Option<int>)

  /** The Java class of an event, which is what a listener's parameter type names. */
  datatype EventClass =
    | BookingCreatedClass
    | BookingCancelledClass
    | BookingUpdatedClass
    | BookingConfirmedClass
    | BookingRejectedClass
    | BookingUpdateConfirmedClass
    | BookingUpdateRejectedClass
    | FlightCancelledClass

  function ClassOf(e: Event): EventClass {
    match e
    case BookingCreated(_, _, _) => BookingCreatedClass
    case BookingCancelled(_, _) => BookingCancelledClass
    case BookingUpdated(_, _, _, _) => BookingUpdatedClass
    case BookingConfirmed(_) => BookingConfirmedClass
    case BookingRejected(_) => BookingRejectedClass
    case BookingUpdateConfirmed(_, _) => BookingUpdateConfirmedClass
    case BookingUpdateRejected(_, _, _, _) => BookingUpdateRejectedClass
    case FlightCancelled(_) => FlightCancelledClass
  }

  /** One convertAndSend call: the exchange, the routing key and the payload. */
  datatype Message = Message(exchange: string, routingKey: string, event: Event)
}

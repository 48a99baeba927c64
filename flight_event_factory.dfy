/** The flight service's constructors for its five reply events. */
module FlightEventFactory {
  import Events

  /** The confirmation carries the booking id; the flight id argument is dropped. */
  function BookingConfirmed(bookingId: int, flightId: int): (e: Events.Event)
    ensures e.BookingConfirmed? && e.bookingId == bookingId
  {
    Events.BookingConfirmed(bookingId)
  }

  /** The confirmation does not depend on the flight id it is given. */
  lemma BookingConfirmedDropsFlight(bookingId: int, f1: int, f2: int)
    ensures BookingConfirmed(bookingId, f1) == BookingConfirmed(bookingId, f2)
  {
  }

  function BookingRejected(bookingId: int): (e: Events.Event)
    ensures e.BookingRejected? && e.bookingId == bookingId
  {
    Events.BookingRejected(bookingId)
  }

  /** A flight cancellation carries the (present) id of the cancelled flight. */
  function FlightCancelled(flightId: int): (e: Events.Event)
    ensures e.FlightCancelled? && e.cancelledFlightId == Events.Wrappers.Some(flightId)
  {
    Events.FlightCancelled(Events.Wrappers.Some(flightId))
  }

  /** The update rejection echoes booking id, flight id, current and new counts, in that order. */
  function BookingUpdateRejected(bookingId: int, flightId: int, currentPassengerCount: int, newPassengerCount: int): (e: Events.Event)
    ensures e.BookingUpdateRejected?
    ensures e.bookingId == bookingId && e.flightId == flightId
    ensures e.currentPassengerCount == currentPassengerCount && e.newPassengerCount == newPassengerCount
  {
    Events.BookingUpdateRejected(bookingId, flightId, currentPassengerCount, newPassengerCount)
  }

  function BookingUpdateConfirmed(bookingId: int, flightId: int): (e: Events.Event)
    ensures e.BookingUpdateConfirmed? && e.bookingId == bookingId && e.flightId == flightId
  {
    Events.BookingUpdateConfirmed(bookingId, flightId)
  }
}

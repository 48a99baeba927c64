/** The booking service's constructors for its three outbound events. */
module BookingEventFactory {
  import Events
  import opened BookingModel

  /** BookingCreated copies the saved booking's id, flight id and seat count. */
  function Created(b: Booking): (e: Events.Event)
    ensures e.BookingCreated?
    ensures e.bookingId == b.id && e.flightId == b.flightId && e.passengerCount == b.passengerCount
  {
    Events.BookingCreated(b.id, b.flightId, b.passengerCount)
  }

  /** BookingCancelled carries the flight id and seat count, and no booking id. */
  function BookingCancelled(b: Booking): (e: Events.Event)
    ensures e.BookingCancelled? && e.flightId == b.flightId && e.passengerCount == b.passengerCount
  {
    Events.BookingCancelled(b.flightId, b.passengerCount)
  }

  /** Two bookings on the same flight with the same count produce the same cancellation. */
  lemma BookingCancelledForgetsBooking(a: Booking, b: Booking)
    requires a.flightId == b.flightId && a.passengerCount == b.passengerCount
    ensures BookingCancelled(a) == BookingCancelled(b)
  {
  }

  /** BookingUpdated carries booking id, flight id, current and new counts in argument order. */
  function BookingUpdated(bookingId: int, flightId: int, currentPassengerCount: int, newPassengerCount: int): (e: Events.Event)
    ensures e.BookingUpdated?
    ensures e.bookingId == bookingId && e.flightId == flightId
    ensures e.currentPassengerCount == currentPassengerCount && e.newPassengerCount == newPassengerCount
  {
    Events.BookingUpdated(bookingId, flightId, currentPassengerCount, newPassengerCount)
  }
}

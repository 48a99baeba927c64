/** The booking row of the booking service's table. */
module BookingModel {

  /** The lifecycle states of a booking. */
  datatype BookingStatus = PENDING | CONFIRMED | REJECTED | CANCELLED

  /** A booking as stored: its id, the flight it references, its seat count, status and timestamps. */
  datatype Booking = Booking(
    id: int,
    flightId: int,
    passengerCount: int,
    status: BookingStatus,
    createdAt: int,
    updatedAt: int)
}

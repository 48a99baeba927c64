/**
 * The flight entity. Its passengerCount is the number of seats still free;
 * canBook, book and cancelReservation read and change it.
 */
module FlightModel {

  /** The columns of one row of the flights table (everything but the id). */
  datatype FlightRecord = FlightRecord(
    number: string,
    fromCity: string,
    toCity: string,
    departure: int,
    arrival: int,
    passengerCount: int,
    ticketPrice: int,
    createdAt: int,
    updatedAt: int)
  {
    /** Enough free seats for n passengers. */
    predicate CanBook(n: int) {
      passengerCount >= n
    }

    /** The row after book(n): n fewer free seats, every other column as it was. */
    function Booked(n: int): (r: FlightRecord)
      ensures r.passengerCount == passengerCount - n
      ensures r.(passengerCount := passengerCount) == this
      ensures CanBook(n) ==> r.passengerCount >= 0
    {
      this.(passengerCount := passengerCount - n)
    }

    /** The row after cancelReservation(n): n more free seats, with no upper bound. */
    function Released(n: int): (r: FlightRecord)
      ensures r.passengerCount == passengerCount + n
      ensures r.(passengerCount := passengerCount) == this
    {
      this.(passengerCount := passengerCount + n)
    }
  }

  /** book then cancelReservation of the same count restores the row, and so does the reverse order. */
  lemma BookReleaseInverse(f: FlightRecord, n: int)
    ensures f.Booked(n).Released(n) == f
    ensures f.Released(n).Booked(n) == f
  {
  }

  /** The flight object: loaded from a row, changed in place, written back. */
  class Flight {
    var id: int
    var number: string
    var fromCity: string
    var toCity: string
    var departure: int
    var arrival: int
    var passengerCount: int
    var ticketPrice: int
    var createdAt: int
    var updatedAt: int

    /** The row this object would be written back as. */
    function Record(): FlightRecord
      reads this
    {
      FlightRecord(number, fromCity, toCity, departure, arrival, passengerCount, ticketPrice, createdAt, updatedAt)
    }

    /** An object mapped from the row stored under id. */
    constructor FromRow(id: int, r: FlightRecord)
      ensures this.id == id && Record() == r
    {
      this.id := id;
      number, fromCity, toCity := r.number, r.fromCity, r.toCity;
      departure, arrival := r.departure, r.arrival;
      passengerCount, ticketPrice := r.passengerCount, r.ticketPrice;
      createdAt, updatedAt := r.createdAt, r.updatedAt;
    }

    predicate CanBook(n: int)
      reads this
      ensures CanBook(n) <==> Record().CanBook(n)
    {
      passengerCount >= n
    }

    /** Takes n seats; when CanBook(n) held before, no fewer than zero remain. */
    method Book(n: int)
      modifies this`passengerCount
      ensures Record() == old(Record()).Booked(n)
      ensures old(CanBook(n)) ==> passengerCount >= 0
    {
      passengerCount := passengerCount - n;
    }

    /** Gives n seats back, unconditionally. */
    method CancelReservation(n: int)
      modifies this`passengerCount
      ensures Record() == old(Record()).Released(n)
    {
      passengerCount := passengerCount + n;
    }

    /** setUpdatedAt. */
    method SetUpdatedAt(t: int)
      modifies this`updatedAt
      ensures Record() == old(Record()).(updatedAt := t)
    {
      updatedAt := t;
    }
  }
}

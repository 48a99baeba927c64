/**
 * The bookings table, held as a map from id to row. The writes differ in
 * which columns they set: update and rejectBookingUpdate write flight_id,
 * passenger_count, status and updated_at; confirmBooking leaves
 * passenger_count alone. The reads and the statistics are functions of the map.
 */
module BookingRepository {
  import opened Wrappers
  import opened BookingModel

  /** Every row is keyed by its own id. */
  predicate KeyedById(rows: map<int, Booking>) {
    forall k :: k in rows ==> rows[k].id == k
  }

  /** UPDATE bookings SET flight_id, passenger_count, status, updated_at WHERE id = ?. */
  function WriteBooking(rows: map<int, Booking>, b: Booking): (t: map<int, Booking>)
    ensures t.Keys == rows.Keys
    ensures forall k :: k in rows && k != b.id ==> t[k] == rows[k]
    ensures b.id in rows ==> t[b.id] == rows[b.id].(flightId := b.flightId, passengerCount := b.passengerCount,
                                                   status := b.status, updatedAt := b.updatedAt)
    ensures b.id in rows ==> t[b.id].id == rows[b.id].id && t[b.id].createdAt == rows[b.id].createdAt
  {
    if b.id in rows
    then rows[b.id := rows[b.id].(flightId := b.flightId, passengerCount := b.passengerCount,
                                  status := b.status, updatedAt := b.updatedAt)]
    else rows
  }

  /** UPDATE bookings SET flight_id, status, updated_at WHERE id = ?: the seat count is not written. */
  function WriteConfirmation(rows: map<int, Booking>, b: Booking): (t: map<int, Booking>)
    ensures t.Keys == rows.Keys
    ensures forall k :: k in rows && k != b.id ==> t[k] == rows[k]
    ensures b.id in rows ==> t[b.id].passengerCount == rows[b.id].passengerCount
    ensures b.id in rows ==> t[b.id] == rows[b.id].(flightId := b.flightId, status := b.status, updatedAt := b.updatedAt)
  {
    if b.id in rows
    then rows[b.id := rows[b.id].(flightId := b.flightId, status := b.status, updatedAt := b.updatedAt)]
    else rows
  }

  /** DELETE FROM bookings WHERE flight_id = ?. */
  function DeleteFlight(rows: map<int, Booking>, flightId: int): (t: map<int, Booking>)
    ensures forall k :: k in t <==> k in rows && rows[k].flightId != flightId
    ensures forall k :: k in t ==> t[k] == rows[k]
  {
    map k | k in rows && rows[k].flightId != flightId :: rows[k]
  }

  /** findById: the stored row, or empty. */
  function FindById(rows: map<int, Booking>, id: int): (r: Option<Booking>)
    ensures r.Some? <==> id in rows
    ensures r.Some? ==> r.value == rows[id]
  {
    if id in rows then Some(rows[id]) else None
  }

  /** query: every row when the count is null, otherwise exactly the rows with that count. */
  function Query(rows: map<int, Booking>, passengerCount: Option<int>): (r: map<int, Booking>)
    ensures passengerCount.None? ==> r == rows
    ensures forall k :: k in r <==> k in rows && (passengerCount.Some? ==> rows[k].passengerCount == passengerCount.value)
    ensures forall k :: k in r ==> r[k] == rows[k]
  {
    if passengerCount.None? then rows
    else map k | k in rows && rows[k].passengerCount == passengerCount.value :: rows[k]
  }

  /** SUM(passenger_count) over the table. */
  ghost function TotalPassengers(rows: map<int, Booking>): int
    decreases |rows|
  {
    if |rows| == 0 then 0
    else
      var k := Pick(rows);
      rows[k].passengerCount + TotalPassengers(rows - {k})
  }

  /** Some row of a non-empty table: the one the sum takes first. */
  ghost function Pick(rows: map<int, Booking>): (k: int)
    requires |rows| > 0
    ensures k in rows
  {
    HasKey(rows);
    var k :| k in rows; k
  }

  lemma HasKey(rows: map<int, Booking>)
    requires |rows| > 0
    ensures exists k :: k in rows
  {
    if forall k :: k !in rows {
      assert false;
    }
  }

  /** The sum does not depend on which row is taken first. */
  lemma {:induction false} TotalWithout(rows: map<int, Booking>, k: int)
    requires k in rows
    ensures TotalPassengers(rows) == rows[k].passengerCount + TotalPassengers(rows - {k})
    decreases |rows|
  {
    var j := Pick(rows);
    if j != k {
      TotalWithout(rows - {j}, k);
      TotalWithout(rows - {k}, j);
      assert rows - {j} - {k} == rows - {k} - {j};
    }
  }

  /** The COUNT(*) and SUM(passenger_count) columns of calculateStatistics. */
  datatype BookingStatistics = BookingStatistics(bookingCount: int, totalPassengerCount: int)

  ghost function CalculateStatistics(rows: map<int, Booking>): (s: BookingStatistics)
    ensures s.bookingCount == |rows|
    ensures rows == map[] ==> s.totalPassengerCount == 0
    ensures forall k :: k in rows ==> s.totalPassengerCount == rows[k].passengerCount + TotalPassengers(rows - {k})
  {
    forall k | k in rows ensures TotalPassengers(rows) == rows[k].passengerCount + TotalPassengers(rows - {k}) {
      TotalWithout(rows, k);
    }
    BookingStatistics(|rows|, TotalPassengers(rows))
  }

  class BookingTable {
    var rows: map<int, Booking>
    /** The id the serial column hands out next. */
    var nextId: int

    ghost predicate Valid()
      reads this
    {
      KeyedById(rows) && forall k :: k in rows ==> k < nextId
    }

    constructor ()
      ensures Valid() && rows == map[]
    {
      rows := map[];
      nextId := 1;
    }

    /** INSERT ... RETURNING: the booking is stored under a fresh id and read back. */
    method Save(b: Booking) returns (saved: Booking)
      requires Valid()
      modifies this
      ensures Valid()
      ensures saved.id !in old(rows) && saved == b.(id := saved.id)
      ensures rows == old(rows)[saved.id := saved]
    {
      saved := b.(id := nextId);
      rows := rows[saved.id := saved];
      nextId := nextId + 1;
    }

    method Update(b: Booking) returns (same: Booking)
      requires Valid()
      modifies this`rows
      ensures Valid() && same == b
      ensures rows == WriteBooking(old(rows), b)
    {
      rows := WriteBooking(rows, b);
      same := b;
    }

    method ConfirmBooking(b: Booking)
      requires Valid()
      modifies this`rows
      ensures Valid()
      ensures rows == WriteConfirmation(old(rows), b)
    {
      rows := WriteConfirmation(rows, b);
    }

    method RejectBookingUpdate(b: Booking)
      requires Valid()
      modifies this`rows
      ensures Valid()
      ensures rows == WriteBooking(old(rows), b)
    {
      rows := WriteBooking(rows, b);
    }

    /** DELETE ... WHERE id = ?: an absent id is a no-op. */
    method DeleteById(id: int)
      requires Valid()
      modifies this`rows
      ensures Valid()
      ensures rows == old(rows) - {id}
    {
      rows := rows - {id};
    }

    method DeleteByFlightId(flightId: int)
      requires Valid()
      modifies this`rows
      ensures Valid()
      ensures rows == DeleteFlight(old(rows), flightId)
    {
      rows := DeleteFlight(rows, flightId);
    }
  }

  /** Removing a booking lowers the passenger total by exactly its seat count. */
  lemma StatisticsAfterDelete(rows: map<int, Booking>, id: int)
    requires id in rows
    ensures CalculateStatistics(rows - {id}).bookingCount == CalculateStatistics(rows).bookingCount - 1
    ensures CalculateStatistics(rows - {id}).totalPassengerCount
         == CalculateStatistics(rows).totalPassengerCount - rows[id].passengerCount
  {
    TotalWithout(rows, id);
  }

  /** Setting one booking's seat count changes the total by the difference. */
  lemma StatisticsAfterWrite(rows: map<int, Booking>, b: Booking)
    requires b.id in rows
    ensures CalculateStatistics(WriteBooking(rows, b)).bookingCount == |rows|
    ensures CalculateStatistics(WriteBooking(rows, b)).totalPassengerCount
         == CalculateStatistics(rows).totalPassengerCount - rows[b.id].passengerCount + b.passengerCount
  {
    var t := WriteBooking(rows, b);
    TotalWithout(rows, b.id);
    TotalWithout(t, b.id);
    assert t - {b.id} == rows - {b.id};
  }
}

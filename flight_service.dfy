/**
 * The flight side of the saga. Each handler loads a flight, changes the
 * loaded object, writes it back and publishes at most one reply. Each is
 * specified by a pure function of the table before the call giving the
 * outcome, the table after it and the messages sent.
 */
module FlightService {
  import opened Wrappers
  import opened Events
  import opened FlightModel
  import opened FlightRepository
  import Pub = FlightEventPublisher

  /** What one handler does: how it ends, the table it leaves, the messages it sends. */
  datatype FlightEffect = FlightEffect(outcome: Outcome, rows: map<int, FlightRecord>, sent: seq<Message>)

  /** Every flight has a non-negative number of free seats. */
  predicate NoOverbooking(rows: map<int, FlightRecord>) {
    forall k :: k in rows ==> rows[k].passengerCount >= 0
  }

  // ---------------------------------------------------------------- reserve

  /** reserve: confirm and take the seats when they fit, otherwise reject; an unknown flight throws. */
  function ReserveEffect(rows: map<int, FlightRecord>, e: Event, now: int): (r: FlightEffect)
    requires e.BookingCreated?
    ensures e.flightId !in rows ==> r == FlightEffect(Thrown(FlightNotFound(e.flightId)), rows, [])
    ensures e.flightId in rows ==> r.outcome == Normal && |r.sent| == 1
    ensures e.flightId in rows ==>
      (r.sent[0] == Pub.BookingConfirmedMessage(e) <==> rows[e.flightId].passengerCount >= e.passengerCount)
    ensures e.flightId in rows && rows[e.flightId].passengerCount >= e.passengerCount ==>
      && r.rows.Keys == rows.Keys
      && r.rows[e.flightId] == rows[e.flightId].(passengerCount := rows[e.flightId].passengerCount - e.passengerCount, updatedAt := now)
      && r.rows[e.flightId].passengerCount >= 0
      && (forall k :: k in rows && k != e.flightId ==> r.rows[k] == rows[k])
    ensures e.flightId in rows && rows[e.flightId].passengerCount < e.passengerCount ==>
      r.rows == rows && r.sent == [Pub.BookingRejectedMessage(e)]
  {
    if e.flightId !in rows then FlightEffect(Thrown(FlightNotFound(e.flightId)), rows, [])
    else
      var f := rows[e.flightId];
      if f.CanBook(e.passengerCount)
      then FlightEffect(Normal, WritePassengerCount(rows, e.flightId, f.Booked(e.passengerCount).passengerCount, now),
                        [Pub.BookingConfirmedMessage(e)])
      else FlightEffect(Normal, rows, [Pub.BookingRejectedMessage(e)])
  }

  // ------------------------------------------------------ cancelReservation

  /** cancelReservation: the seats come back unconditionally and nothing is published. */
  function CancelReservationEffect(rows: map<int, FlightRecord>, e: Event, now: int): (r: FlightEffect)
    requires e.BookingCancelled?
    ensures r.sent == []
    ensures e.flightId !in rows ==> r == FlightEffect(Thrown(FlightNotFound(e.flightId)), rows, [])
    ensures e.flightId in rows ==>
      && r.outcome == Normal
      && r.rows.Keys == rows.Keys
      && r.rows[e.flightId] == rows[e.flightId].(passengerCount := rows[e.flightId].passengerCount + e.passengerCount, updatedAt := now)
      && (forall k :: k in rows && k != e.flightId ==> r.rows[k] == rows[k])
  {
    if e.flightId !in rows then FlightEffect(Thrown(FlightNotFound(e.flightId)), rows, [])
    else
      var f := rows[e.flightId];
      FlightEffect(Normal, WritePassengerCount(rows, e.flightId, f.Released(e.passengerCount).passengerCount, now), [])
  }

  // -------------------------------------------------- updateBookingOnFlight

  /** The signed seat change a booking update asks for: new count minus current count. */
  function Change(e: Event): int
    requires e.BookingUpdated?
  {
    e.newPassengerCount - e.currentPassengerCount
  }

  /** The guard as the source writes it: `change > 0 || canBook(change)`. */
  predicate UpdateAcceptedAsWritten(remaining: int, change: int) {
    change > 0 || remaining >= change
  }

  /** The guard as intended: a release always fits, a growth only when the seats are free. */
  predicate UpdateAccepted(remaining: int, change: int) {
    change <= 0 || remaining >= change
  }

  /** With all seats accounted for, the corrected guard accepts exactly the changes that leave no flight overbooked. */
  lemma UpdateAcceptedIffFits(remaining: int, change: int)
    requires remaining >= 0
    ensures UpdateAccepted(remaining, change) <==> remaining - change >= 0
  {
  }

  /** As written, the guard never refuses while no flight is overbooked. */
  lemma AsWrittenNeverRejects(remaining: int, change: int)
    requires remaining >= 0
    ensures UpdateAcceptedAsWritten(remaining, change)
  {
  }

  /** The shared branch structure of updateBookingOnFlight, given whether the guard accepted. */
  function ApplyUpdate(rows: map<int, FlightRecord>, e: Event, now: int, accepted: bool): (r: FlightEffect)
    requires e.BookingUpdated? && e.flightId in rows
    ensures r.outcome == Normal && r.rows.Keys == rows.Keys
    ensures accepted ==> r.sent == [Pub.BookingUpdateConfirmedMessage(e)]
    ensures accepted ==>
      r.rows[e.flightId] == rows[e.flightId].(passengerCount := rows[e.flightId].passengerCount - Change(e), updatedAt := now)
    ensures accepted ==> forall k :: k in rows && k != e.flightId ==> r.rows[k] == rows[k]
    ensures !accepted ==> r.rows == rows && r.sent == [Pub.BookingUpdateRejectedMessage(e)]
  {
    if accepted
    then FlightEffect(Normal, WritePassengerCount(rows, e.flightId, rows[e.flightId].Booked(Change(e)).passengerCount, now),
                      [Pub.BookingUpdateConfirmedMessage(e)])
    else FlightEffect(Normal, rows, [Pub.BookingUpdateRejectedMessage(e)])
  }

  /** updateBookingOnFlight as the source writes it. */
  function UpdateBookingOnFlightAsWritten(rows: map<int, FlightRecord>, e: Event, now: int): (r: FlightEffect)
    requires e.BookingUpdated?
    ensures e.flightId !in rows ==> r == FlightEffect(Thrown(FlightNotFound(e.flightId)), rows, [])
    ensures e.flightId in rows ==> r.outcome == Normal && |r.sent| == 1 && r.rows.Keys == rows.Keys
    ensures e.flightId in rows && rows[e.flightId].passengerCount >= 0 ==>
      && r.sent == [Pub.BookingUpdateConfirmedMessage(e)]
      && r.rows[e.flightId] == rows[e.flightId].(passengerCount := rows[e.flightId].passengerCount - Change(e), updatedAt := now)
      && (forall k :: k in rows && k != e.flightId ==> r.rows[k] == rows[k])
  {
    if e.flightId !in rows then FlightEffect(Thrown(FlightNotFound(e.flightId)), rows, [])
    else ApplyUpdate(rows, e, now, UpdateAcceptedAsWritten(rows[e.flightId].passengerCount, Change(e)))
  }

  /**
   * updateBookingOnFlight with the corrected guard: one reply for a known
   * flight, the seat change applied only when it was confirmed, and never
   * an overbooked flight when there was none before.
   */
  function UpdateBookingOnFlightEffect(rows: map<int, FlightRecord>, e: Event, now: int): (r: FlightEffect)
    requires e.BookingUpdated?
    ensures e.flightId !in rows ==> r == FlightEffect(Thrown(FlightNotFound(e.flightId)), rows, [])
    ensures e.flightId in rows ==> r.outcome == Normal && |r.sent| == 1 && r.rows.Keys == rows.Keys
    ensures e.flightId in rows ==>
      (r.sent[0] == Pub.BookingUpdateConfirmedMessage(e) <==> UpdateAccepted(rows[e.flightId].passengerCount, Change(e)))
    ensures e.flightId in rows && r.sent[0] == Pub.BookingUpdateConfirmedMessage(e) ==>
      && r.rows[e.flightId] == rows[e.flightId].(passengerCount := rows[e.flightId].passengerCount - Change(e), updatedAt := now)
      && (forall k :: k in rows && k != e.flightId ==> r.rows[k] == rows[k])
    ensures e.flightId in rows && !UpdateAccepted(rows[e.flightId].passengerCount, Change(e)) ==>
      r.rows == rows && r.sent == [Pub.BookingUpdateRejectedMessage(e)]
    ensures NoOverbooking(rows) ==> NoOverbooking(r.rows)
  {
    if e.flightId !in rows then FlightEffect(Thrown(FlightNotFound(e.flightId)), rows, [])
    else
      var r := ApplyUpdate(rows, e, now, UpdateAccepted(rows[e.flightId].passengerCount, Change(e)));
      assert Pub.BookingUpdateConfirmedMessage(e) != Pub.BookingUpdateRejectedMessage(e);
      r
  }

  /** A flight with 3 free seats and a booking growing from 2 to 9: the source confirms and leaves -4. */
  lemma AsWrittenOverbooks()
    ensures var rows := map[1 := FlightRecord("F1", "A", "B", 0, 60, 3, 10000, 0, 0)];
            var e := BookingUpdated(7, 1, 2, 9);
            && NoOverbooking(rows)
            && UpdateBookingOnFlightAsWritten(rows, e, 5).sent == [Pub.BookingUpdateConfirmedMessage(e)]
            && UpdateBookingOnFlightAsWritten(rows, e, 5).rows[1].passengerCount == -4
            && !NoOverbooking(UpdateBookingOnFlightAsWritten(rows, e, 5).rows)
  {
  }

  /** The same update under the corrected guard is refused and the flight keeps its 3 seats. */
  lemma CorrectedRefusesOverbooking()
    ensures var rows := map[1 := FlightRecord("F1", "A", "B", 0, 60, 3, 10000, 0, 0)];
            var e := BookingUpdated(7, 1, 2, 9);
            && UpdateBookingOnFlightEffect(rows, e, 5).sent == [Pub.BookingUpdateRejectedMessage(e)]
            && UpdateBookingOnFlightEffect(rows, e, 5).rows == rows
  {
  }

  // ----------------------------------------------------------------- update

  /** The patch the update endpoint passes: the flight id and the fields to overwrite, null meaning keep. */
  datatype FlightPatch = FlightPatch(
    id: int,
    number: Option<string>,
    fromCity: Option<string>,
    toCity: Option<string>,
    departure: Option<int>,
    arrival: Option<int>,
    passengerCount: Option<int>,
    ticketPrice: Option<int>)

  function Or<T>(o: Option<T>, d: T): T {
    if o.Some? then o.value else d
  }

  /** The loaded flight after the null-checked setters and the refreshed updatedAt. */
  function Merge(existing: FlightRecord, p: FlightPatch, now: int): (r: FlightRecord)
    ensures p.number.Some? ==> r.number == p.number.value
    ensures p.number.None? ==> r.number == existing.number
    ensures p.fromCity.Some? ==> r.fromCity == p.fromCity.value
    ensures p.fromCity.None? ==> r.fromCity == existing.fromCity
    ensures p.toCity.Some? ==> r.toCity == p.toCity.value
    ensures p.toCity.None? ==> r.toCity == existing.toCity
    ensures p.departure.Some? ==> r.departure == p.departure.value
    ensures p.departure.None? ==> r.departure == existing.departure
    ensures p.arrival.Some? ==> r.arrival == p.arrival.value
    ensures p.arrival.None? ==> r.arrival == existing.arrival
    ensures p.passengerCount.Some? ==> r.passengerCount == p.passengerCount.value
    ensures p.passengerCount.None? ==> r.passengerCount == existing.passengerCount
    ensures p.ticketPrice.Some? ==> r.ticketPrice == p.ticketPrice.value
    ensures p.ticketPrice.None? ==> r.ticketPrice == existing.ticketPrice
    ensures r.createdAt == existing.createdAt && r.updatedAt == now
  {
    FlightRecord(Or(p.number, existing.number), Or(p.fromCity, existing.fromCity), Or(p.toCity, existing.toCity),
                 Or(p.departure, existing.departure), Or(p.arrival, existing.arrival),
                 Or(p.passengerCount, existing.passengerCount), Or(p.ticketPrice, existing.ticketPrice),
                 existing.createdAt, now)
  }

  /** Applying the same patch twice is the same as applying it once. */
  lemma MergeIdempotent(existing: FlightRecord, p: FlightPatch, now: int)
    ensures Merge(Merge(existing, p, now), p, now) == Merge(existing, p, now)
  {
  }

  /** A patch of nulls only refreshes updatedAt. */
  lemma MergeEmptyPatch(existing: FlightRecord, id: int, now: int)
    ensures Merge(existing, FlightPatch(id, None, None, None, None, None, None, None), now) == existing.(updatedAt := now)
  {
  }

  /** update: an unknown id throws; otherwise the merged row replaces the stored one and is returned. */
  function UpdateEffect(rows: map<int, FlightRecord>, p: FlightPatch, now: int): (r: (Result<FlightRecord>, map<int, FlightRecord>))
    ensures p.id !in rows ==> r == (Failure(FlightNotFound(p.id)), rows)
    ensures p.id in rows ==> r.0 == Success(Merge(rows[p.id], p, now)) && r.1 == rows[p.id := Merge(rows[p.id], p, now)]
  {
    if p.id !in rows then (Failure(FlightNotFound(p.id)), rows)
    else (Success(Merge(rows[p.id], p, now)), WriteAllButCreated(rows, p.id, Merge(rows[p.id], p, now)))
  }

  // ------------------------------------------------------------- deleteById

  /** deleteById: an unknown id throws before publishing; otherwise one FlightCancelled, then the row goes. */
  function DeleteEffect(rows: map<int, FlightRecord>, id: int): (r: FlightEffect)
    ensures id !in rows ==> r == FlightEffect(Thrown(FlightNotFound(id)), rows, [])
    ensures id in rows ==> r.outcome == Normal && r.sent == [Pub.FlightCancelledMessage(id)]
    ensures id in rows ==> r.rows.Keys == rows.Keys - {id} && forall k :: k in r.rows ==> r.rows[k] == rows[k]
  {
    if id !in rows then FlightEffect(Thrown(FlightNotFound(id)), rows, [])
    else FlightEffect(Normal, DeleteRow(rows, id).1, [Pub.FlightCancelledMessage(id)])
  }

  // --------------------------------------------------------------- the saga

  /** Reserving and then cancelling the same seats gives the flight back its free seats. */
  lemma ReserveThenCancelRestores(rows: map<int, FlightRecord>, bookingId: int, flightId: int, n: int, t1: int, t2: int)
    requires flightId in rows && rows[flightId].passengerCount >= n
    ensures var reserved := ReserveEffect(rows, BookingCreated(bookingId, flightId, n), t1).rows;
            var released := CancelReservationEffect(reserved, BookingCancelled(flightId, n), t2).rows;
            && released.Keys == rows.Keys
            && released[flightId] == rows[flightId].(updatedAt := t2)
            && forall k :: k in rows && k != flightId ==> released[k] == rows[k]
  {
  }

  /** Reserve and the corrected update never overbook; a release of a non-negative count does not either. */
  lemma HandlersKeepNoOverbooking(rows: map<int, FlightRecord>, e: Event, now: int)
    requires NoOverbooking(rows)
    ensures e.BookingCreated? ==> NoOverbooking(ReserveEffect(rows, e, now).rows)
    ensures e.BookingUpdated? ==> NoOverbooking(UpdateBookingOnFlightEffect(rows, e, now).rows)
    ensures e.BookingCancelled? && e.passengerCount >= 0 ==> NoOverbooking(CancelReservationEffect(rows, e, now).rows)
  {
  }

  class FlightService {
    const publisher: Pub.FlightEventPublisher
    const repository: FlightTable

    constructor (publisher: Pub.FlightEventPublisher, repository: FlightTable)
      ensures this.publisher == publisher && this.repository == repository
    {
      this.publisher := publisher;
      this.repository := repository;
    }

    ghost predicate Valid()
      reads this, repository
    {
      repository.Valid()
    }

    /** create: stamps createdAt and updatedAt with the same time and saves. */
    method Create(flight: Flight, now: int) returns (saved: Flight)
      requires Valid()
      modifies flight, repository
      ensures Valid() && fresh(saved)
      ensures saved.id !in old(repository.rows)
      ensures saved.Record() == old(flight.Record()).(createdAt := now, updatedAt := now)
      ensures repository.rows == old(repository.rows)[saved.id := saved.Record()]
    {
      flight.createdAt := now;
      flight.SetUpdatedAt(now);
      saved := repository.Save(flight);
    }

    method Update(p: FlightPatch, now: int) returns (r: Result<FlightRecord>)
      requires Valid()
      modifies repository
      ensures Valid()
      ensures (r, repository.rows) == UpdateEffect(old(repository.rows), p, now)
      ensures publisher.sent == old(publisher.sent)
    {
      var found := repository.FindById(p.id);
      if found.None? {
        return Failure(FlightNotFound(p.id));
      }
      var existing := found.value;
      ApplyPatch(existing, p);
      existing.SetUpdatedAt(now);
      var same := repository.Update(existing);
      return Success(same.Record());
    }

    /** The null-checked setters of update: each present field overwrites the loaded one. */
    static method ApplyPatch(existing: Flight, p: FlightPatch)
      modifies existing
      ensures existing.id == old(existing.id)
      ensures existing.Record() == Merge(old(existing.Record()), p, old(existing.updatedAt))
    {
      ghost var merged := Merge(existing.Record(), p, existing.updatedAt);
      if p.number.Some? { existing.number := p.number.value; }
      assert existing.number == merged.number;
      if p.fromCity.Some? { existing.fromCity := p.fromCity.value; }
      assert existing.fromCity == merged.fromCity;
      if p.toCity.Some? { existing.toCity := p.toCity.value; }
      assert existing.toCity == merged.toCity;
      if p.departure.Some? { existing.departure := p.departure.value; }
      assert existing.departure == merged.departure;
      if p.arrival.Some? { existing.arrival := p.arrival.value; }
      assert existing.arrival == merged.arrival;
      if p.passengerCount.Some? { existing.passengerCount := p.passengerCount.value; }
      assert existing.passengerCount == merged.passengerCount;
      if p.ticketPrice.Some? { existing.ticketPrice := p.ticketPrice.value; }
    }

    method DeleteById(id: int) returns (outcome: Outcome)
      requires Valid()
      modifies repository, publisher
      ensures Valid()
      ensures var eff := DeleteEffect(old(repository.rows), id);
              outcome == eff.outcome && repository.rows == eff.rows && publisher.sent == old(publisher.sent) + eff.sent
    {
      var found := repository.FindById(id);
      if found.None? {
        return Thrown(FlightNotFound(id));
      }
      publisher.PublishFlightCancelled(id);
      var _ := repository.DeleteById(id);
      return Normal;
    }

    method Reserve(e: Event, now: int) returns (outcome: Outcome)
      requires e.BookingCreated? && Valid()
      modifies repository, publisher
      ensures Valid()
      ensures var eff := ReserveEffect(old(repository.rows), e, now);
              outcome == eff.outcome && repository.rows == eff.rows && publisher.sent == old(publisher.sent) + eff.sent
    {
      var found := repository.FindById(e.flightId);
      if found.None? {
        return Thrown(FlightNotFound(e.flightId));
      }
      var flight := found.value;
      if flight.CanBook(e.passengerCount) {
        flight.Book(e.passengerCount);
        flight.SetUpdatedAt(now);
        repository.UpdatePassengerCount(flight);
        publisher.PublishBookingConfirmed(e);
      } else {
        publisher.PublishBookingRejected(e);
      }
      return Normal;
    }

    method CancelReservation(e: Event, now: int) returns (outcome: Outcome)
      requires e.BookingCancelled? && Valid()
      modifies repository
      ensures Valid()
      ensures var eff := CancelReservationEffect(old(repository.rows), e, now);
              outcome == eff.outcome && repository.rows == eff.rows
      ensures publisher.sent == old(publisher.sent)
    {
      var found := repository.FindById(e.flightId);
      if found.None? {
        return Thrown(FlightNotFound(e.flightId));
      }
      var flight := found.value;
      flight.CancelReservation(e.passengerCount);
      flight.SetUpdatedAt(now);
      repository.UpdatePassengerCount(flight);
      return Normal;
    }

    /** updateBookingOnFlight with the corrected guard. */
    method UpdateBookingOnFlight(e: Event, now: int) returns (outcome: Outcome)
      requires e.BookingUpdated? && Valid()
      modifies repository, publisher
      ensures Valid()
      ensures var eff := UpdateBookingOnFlightEffect(old(repository.rows), e, now);
              outcome == eff.outcome && repository.rows == eff.rows && publisher.sent == old(publisher.sent) + eff.sent
    {
      var found := repository.FindById(e.flightId);
      if found.None? {
        return Thrown(FlightNotFound(e.flightId));
      }
      var flight := found.value;
      var change := e.newPassengerCount - e.currentPassengerCount;
      if change <= 0 || flight.CanBook(change) {
        flight.Book(change);
        flight.SetUpdatedAt(now);
        repository.UpdatePassengerCount(flight);
        publisher.PublishBookingUpdateConfirmed(e);
      } else {
        publisher.PublishBookingUpdateRejected(e);
      }
      return Normal;
    }
  }
}

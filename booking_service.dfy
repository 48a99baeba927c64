/**
 * The booking side of the saga: a booking is created PENDING, set CONFIRMED
 * by a confirmation or an update reply, and deleted on a rejection, a
 * cancellation or a cancelled flight. Each handler is specified by a pure
 * function of the table before the call.
 */
module BookingService {
  import opened Wrappers
  import opened Events
  import opened BookingModel
  import opened BookingRepository
  import Pub = BookingEventPublisher

  /** What one handler does: how it ends, the table it leaves, the messages it sends. */
  datatype BookingEffect = BookingEffect(outcome: Outcome, rows: map<int, Booking>, sent: seq<Message>)

  /** The row create saves: the request's flight and seat count, PENDING, both timestamps now. */
  function NewBooking(request: Booking, id: int, now: int): (b: Booking)
    ensures b.id == id && b.flightId == request.flightId && b.passengerCount == request.passengerCount
    ensures b.status == PENDING && b.createdAt == now && b.updatedAt == now
  {
    request.(id := id, status := PENDING, createdAt := now, updatedAt := now)
  }

  /** create, given the id the table hands out: one new row and one BookingCreated carrying it. */
  function CreateEffect(rows: map<int, Booking>, id: int, request: Booking, now: int): (r: (Booking, map<int, Booking>, seq<Message>))
    requires id !in rows
    ensures r.0 == NewBooking(request, id, now)
    ensures r.1.Keys == rows.Keys + {id} && forall k :: k in rows ==> r.1[k] == rows[k]
    ensures r.1[id] == r.0
    ensures |r.2| == 1 && r.2[0].event == BookingCreated(id, request.flightId, request.passengerCount)
  {
    var saved := NewBooking(request, id, now);
    (saved, rows[id := saved], [Pub.BookingCreatedMessage(saved)])
  }

  /**
   * update: an unknown id throws and publishes nothing. Otherwise the stored
   * count is published as current and the requested one as new; the row is
   * set PENDING with the requested count, its flight unchanged.
   */
  function UpdateEffect(rows: map<int, Booking>, request: Booking, now: int): (r: (Result<Booking>, map<int, Booking>, seq<Message>))
    requires KeyedById(rows)
    ensures request.id !in rows ==> r == (Failure(BookingNotFound(request.id)), rows, [])
    ensures request.id in rows ==>
      var old_ := rows[request.id];
      && r.2 == [Pub.BookingUpdatedMessage(request.id, old_.flightId, old_.passengerCount, request.passengerCount)]
      && r.0.Success? && r.1 == rows[request.id := r.0.value]
      && r.0.value == old_.(status := PENDING, passengerCount := request.passengerCount, updatedAt := now)
  {
    if request.id !in rows then (Failure(BookingNotFound(request.id)), rows, [])
    else
      var existing := rows[request.id];
      var updated := existing.(status := PENDING, passengerCount := request.passengerCount, updatedAt := now);
      (Success(updated), WriteBooking(rows, updated),
       [Pub.BookingUpdatedMessage(existing.id, existing.flightId, existing.passengerCount, request.passengerCount)])
  }

  /** cancel: an unknown id throws; otherwise BookingCancelled of the stored row, then the row goes. */
  function CancelEffect(rows: map<int, Booking>, id: int): (r: BookingEffect)
    ensures id !in rows ==> r == BookingEffect(Thrown(BookingNotFound(id)), rows, [])
    ensures id in rows ==> r.outcome == Normal && r.rows == rows - {id}
    ensures id in rows ==> r.sent == [Pub.BookingCancelledMessage(rows[id])]
    ensures id in rows ==> r.sent[0].event == BookingCancelled(rows[id].flightId, rows[id].passengerCount)
  {
    if id !in rows then BookingEffect(Thrown(BookingNotFound(id)), rows, [])
    else BookingEffect(Normal, rows - {id}, [Pub.BookingCancelledMessage(rows[id])])
  }

  /**
   * confirmBooking and confirmBookingUpdate: the booking becomes CONFIRMED
   * and keeps its flight and seat count; an unknown id fails in orElseThrow.
   */
  function ConfirmEffect(rows: map<int, Booking>, bookingId: int, now: int): (r: BookingEffect)
    requires KeyedById(rows)
    ensures r.sent == []
    ensures bookingId !in rows ==> r == BookingEffect(Thrown(NoSuchElement), rows, [])
    ensures bookingId in rows ==>
      && r.outcome == Normal && r.rows.Keys == rows.Keys
      && r.rows[bookingId] == rows[bookingId].(status := CONFIRMED, updatedAt := now)
      && forall k :: k in rows && k != bookingId ==> r.rows[k] == rows[k]
  {
    if bookingId !in rows then BookingEffect(Thrown(NoSuchElement), rows, [])
    else
      var b := rows[bookingId].(status := CONFIRMED, updatedAt := now);
      BookingEffect(Normal, WriteConfirmation(rows, b), [])
  }

  /** reject: deletes only the named booking; a null event does nothing. */
  function RejectEffect(rows: map<int, Booking>, event: Option<Event>): (r: BookingEffect)
    requires event.Some? ==> event.value.BookingRejected?
    ensures r.outcome == Normal && r.sent == []
    ensures event.None? ==> r.rows == rows
    ensures event.Some? ==> r.rows == rows - {event.value.bookingId}
  {
    if event.None? then BookingEffect(Normal, rows, [])
    else BookingEffect(Normal, rows - {event.value.bookingId}, [])
  }

  /** cancelBookingsOnFlight: every booking on the flight goes, whatever its status; a null id does nothing. */
  function CancelBookingsOnFlightEffect(rows: map<int, Booking>, e: Event): (r: BookingEffect)
    requires e.FlightCancelled?
    ensures r.outcome == Normal && r.sent == []
    ensures e.cancelledFlightId.None? ==> r.rows == rows
    ensures e.cancelledFlightId.Some? ==>
      (forall k :: k in r.rows <==> k in rows && rows[k].flightId != e.cancelledFlightId.value)
    ensures forall k :: k in r.rows ==> r.rows[k] == rows[k]
  {
    if e.cancelledFlightId.None? then BookingEffect(Normal, rows, [])
    else BookingEffect(Normal, DeleteFlight(rows, e.cancelledFlightId.value), [])
  }

  /** rejectBookingUpdate: the count goes back to the event's current count and the booking is CONFIRMED. */
  function RejectBookingUpdateEffect(rows: map<int, Booking>, e: Event, now: int): (r: BookingEffect)
    requires KeyedById(rows) && e.BookingUpdateRejected?
    ensures r.sent == []
    ensures e.bookingId !in rows ==> r == BookingEffect(Thrown(NoSuchElement), rows, [])
    ensures e.bookingId in rows ==>
      && r.outcome == Normal && r.rows.Keys == rows.Keys
      && r.rows[e.bookingId] == rows[e.bookingId].(passengerCount := e.currentPassengerCount, status := CONFIRMED, updatedAt := now)
      && forall k :: k in rows && k != e.bookingId ==> r.rows[k] == rows[k]
  {
    if e.bookingId !in rows then BookingEffect(Thrown(NoSuchElement), rows, [])
    else
      var b := rows[e.bookingId].(passengerCount := e.currentPassengerCount, status := CONFIRMED, updatedAt := now);
      BookingEffect(Normal, WriteBooking(rows, b), [])
  }

  /** A second delivery of the same rejection changes nothing. */
  lemma RejectIdempotent(rows: map<int, Booking>, event: Option<Event>)
    requires event.Some? ==> event.value.BookingRejected?
    ensures RejectEffect(RejectEffect(rows, event).rows, event).rows == RejectEffect(rows, event).rows
  {
  }

  /** Cancelling the bookings of a flight twice is the same as once. */
  lemma CancelBookingsOnFlightIdempotent(rows: map<int, Booking>, e: Event)
    requires e.FlightCancelled?
    ensures var once := CancelBookingsOnFlightEffect(rows, e).rows;
            CancelBookingsOnFlightEffect(once, e).rows == once
  {
  }

  /** After a flight is cancelled no booking refers to it. */
  lemma NoBookingOnCancelledFlight(rows: map<int, Booking>, flightId: int)
    ensures var left := CancelBookingsOnFlightEffect(rows, FlightCancelled(Some(flightId))).rows;
            forall k :: k in left ==> left[k].flightId != flightId
  {
  }

  class BookingService {
    const publisher: Pub.BookingEventPublisher
    const repository: BookingTable

    constructor (publisher: Pub.BookingEventPublisher, repository: BookingTable)
      ensures this.publisher == publisher && this.repository == repository
    {
      this.publisher := publisher;
      this.repository := repository;
    }

    ghost predicate Valid()
      reads this, repository
    {
      repository.Valid()
    }

    method Create(request: Booking, now: int) returns (saved: Booking)
      requires Valid()
      modifies repository, publisher
      ensures Valid()
      ensures saved.id !in old(repository.rows)
      ensures var eff := CreateEffect(old(repository.rows), saved.id, request, now);
              saved == eff.0 && repository.rows == eff.1 && publisher.sent == old(publisher.sent) + eff.2
    {
      var booking := request.(status := PENDING);
      booking := booking.(createdAt := now, updatedAt := now);
      saved := repository.Save(booking);
      publisher.PublishBookingCreated(saved);
    }

    method Update(request: Booking, now: int) returns (r: Result<Booking>)
      requires Valid()
      modifies repository, publisher
      ensures Valid()
      ensures var eff := UpdateEffect(old(repository.rows), request, now);
              r == eff.0 && repository.rows == eff.1 && publisher.sent == old(publisher.sent) + eff.2
    {
      var found := FindById(repository.rows, request.id);
      if found.None? {
        return Failure(BookingNotFound(request.id));
      }
      var existing := found.value;
      publisher.PublishBookingUpdated(existing.id, existing.flightId, existing.passengerCount, request.passengerCount);
      existing := existing.(status := PENDING);
      existing := existing.(passengerCount := request.passengerCount);
      existing := existing.(updatedAt := now);
      var same := repository.Update(existing);
      return Success(same);
    }

    method Cancel(id: int) returns (outcome: Outcome)
      requires Valid()
      modifies repository, publisher
      ensures Valid()
      ensures var eff := CancelEffect(old(repository.rows), id);
              outcome == eff.outcome && repository.rows == eff.rows && publisher.sent == old(publisher.sent) + eff.sent
    {
      var found := FindById(repository.rows, id);
      if found.None? {
        return Thrown(BookingNotFound(id));
      }
      publisher.PublishBookingCancelled(found.value);
      repository.DeleteById(id);
      return Normal;
    }

    method ConfirmBooking(e: Event, now: int) returns (outcome: Outcome)
      requires e.BookingConfirmed? && Valid()
      modifies repository
      ensures Valid()
      ensures var eff := ConfirmEffect(old(repository.rows), e.bookingId, now);
              outcome == eff.outcome && repository.rows == eff.rows
    {
      outcome := Confirm(e.bookingId, now);
    }

    method ConfirmBookingUpdate(e: Event, now: int) returns (outcome: Outcome)
      requires e.BookingUpdateConfirmed? && Valid()
      modifies repository
      ensures Valid()
      ensures var eff := ConfirmEffect(old(repository.rows), e.bookingId, now);
              outcome == eff.outcome && repository.rows == eff.rows
    {
      outcome := Confirm(e.bookingId, now);
    }

    /** The body confirmBooking and confirmBookingUpdate share. */
    method Confirm(bookingId: int, now: int) returns (outcome: Outcome)
      requires Valid()
      modifies repository
      ensures Valid()
      ensures var eff := ConfirmEffect(old(repository.rows), bookingId, now);
              outcome == eff.outcome && repository.rows == eff.rows
    {
      var found := FindById(repository.rows, bookingId);
      if found.None? {
        return Thrown(NoSuchElement);
      }
      var booking := found.value;
      booking := booking.(status := CONFIRMED);
      booking := booking.(updatedAt := now);
      repository.ConfirmBooking(booking);
      return Normal;
    }

    method Reject(event: Option<Event>)
      requires (event.Some? ==> event.value.BookingRejected?) && Valid()
      modifies repository
      ensures Valid()
      ensures repository.rows == RejectEffect(old(repository.rows), event).rows
    {
      if event.Some? {
        repository.DeleteById(event.value.bookingId);
      }
    }

    method CancelBookingsOnFlight(e: Event)
      requires e.FlightCancelled? && Valid()
      modifies repository
      ensures Valid()
      ensures repository.rows == CancelBookingsOnFlightEffect(old(repository.rows), e).rows
    {
      if e.cancelledFlightId.Some? {
        repository.DeleteByFlightId(e.cancelledFlightId.value);
      }
    }

    method RejectBookingUpdate(e: Event, now: int) returns (outcome: Outcome)
      requires e.BookingUpdateRejected? && Valid()
      modifies repository
      ensures Valid()
      ensures var eff := RejectBookingUpdateEffect(old(repository.rows), e, now);
              outcome == eff.outcome && repository.rows == eff.rows
    {
      var found := FindById(repository.rows, e.bookingId);
      if found.None? {
        return Thrown(NoSuchElement);
      }
      var booking := found.value;
      booking := booking.(passengerCount := e.currentPassengerCount);
      booking := booking.(status := CONFIRMED);
      booking := booking.(updatedAt := now);
      repository.RejectBookingUpdate(booking);
      return Normal;
    }
  }
}

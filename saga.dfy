/**
 * The reservation saga end to end: a booking-side operation publishes an
 * event, the flight service handles it and replies, and the reply is
 * handled back on the booking side. Each run follows the messages the
 * effects actually send and applies, for each, the effect of the handler
 * its listener calls. That each message reaches the listener of its class
 * is proved in Routing; which handler each listener class runs is the
 * contract of the two listeners' HandlerEffect. A booking update goes
 * through updateBookingOnFlight under the corrected guard
 * (FlightService.UpdateBookingOnFlightEffect); the guard as written lets
 * an update overbook a flight (FlightService.AsWrittenOverbooks).
 */
module Saga {
  import opened Wrappers
  import opened Events
  import opened FlightModel
  import opened BookingModel
  import opened BookingRepository
  import FS = FlightService
  import BS = BookingService
  import BookingListener = BookingEventListener
  import Routing
  import FlightPub = FlightEventPublisher

  /** The two tables after an exchange of messages has run to its end. */
  datatype Tables = Tables(flights: map<int, FlightRecord>, bookings: map<int, Booking>)

  /**
   * create, then reserve on the flight side, then the reply handled back.
   * What each case leaves in the tables is stated by the lemmas below.
   */
  function CreateSaga(bookings: map<int, Booking>, flights: map<int, FlightRecord>,
                      id: int, request: Booking, t0: int, t1: int, t2: int): (r: Tables)
    requires KeyedById(bookings) && id !in bookings
  {
    var created := BS.CreateEffect(bookings, id, request, t0);
    var reserved := FS.ReserveEffect(flights, created.2[0].event, t1);
    if reserved.sent == [] then Tables(reserved.rows, created.1)
    else
      var reply := reserved.sent[0].event;
      if reply.BookingConfirmed? then Tables(reserved.rows, BS.ConfirmEffect(created.1, reply.bookingId, t2).rows)
      else Tables(reserved.rows, BS.RejectEffect(created.1, Some(reply)).rows)
  }

  /** For an unknown flight the flight side throws and replies nothing: the booking stays PENDING. */
  lemma CreateSagaUnknownFlight(bookings: map<int, Booking>, flights: map<int, FlightRecord>,
                                id: int, request: Booking, t0: int, t1: int, t2: int)
    requires KeyedById(bookings) && id !in bookings && request.flightId !in flights
    ensures var r := CreateSaga(bookings, flights, id, request, t0, t1, t2);
            && r.flights == flights
            && r.bookings == bookings[id := BS.NewBooking(request, id, t0)]
            && r.bookings[id].status == PENDING
  {
    assert BS.CreateEffect(bookings, id, request, t0).2[0].event.flightId == request.flightId;
  }

  /** A booking that fits ends CONFIRMED, and the flight loses exactly its seats. */
  lemma CreateSagaConfirms(bookings: map<int, Booking>, flights: map<int, FlightRecord>,
                           id: int, request: Booking, t0: int, t1: int, t2: int)
    requires KeyedById(bookings) && id !in bookings
    requires request.flightId in flights && flights[request.flightId].passengerCount >= request.passengerCount
    ensures var r := CreateSaga(bookings, flights, id, request, t0, t1, t2);
            && r.flights.Keys == flights.Keys
            && r.flights[request.flightId].passengerCount == flights[request.flightId].passengerCount - request.passengerCount
            && (forall k :: k in flights && k != request.flightId ==> r.flights[k] == flights[k])
            && r.bookings == bookings[id := BS.NewBooking(request, id, t0).(status := CONFIRMED, updatedAt := t2)]
  {
    var created := BS.CreateEffect(bookings, id, request, t0);
    var e := created.2[0].event;
    assert e == BookingCreated(id, request.flightId, request.passengerCount);
    var reply := FS.ReserveEffect(flights, e, t1).sent[0];
    assert reply == FlightPub.BookingConfirmedMessage(e);
    var after := BS.ConfirmEffect(created.1, id, t2).rows;
    assert after.Keys == (bookings[id := BS.NewBooking(request, id, t0).(status := CONFIRMED, updatedAt := t2)]).Keys;
  }

  /** A booking that does not fit is deleted again, and both tables are as they were. */
  lemma CreateSagaRejects(bookings: map<int, Booking>, flights: map<int, FlightRecord>,
                          id: int, request: Booking, t0: int, t1: int, t2: int)
    requires KeyedById(bookings) && id !in bookings
    requires request.flightId in flights && flights[request.flightId].passengerCount < request.passengerCount
    ensures CreateSaga(bookings, flights, id, request, t0, t1, t2) == Tables(flights, bookings)
  {
    var created := BS.CreateEffect(bookings, id, request, t0);
    var e := created.2[0].event;
    assert e == BookingCreated(id, request.flightId, request.passengerCount);
    var reply := FS.ReserveEffect(flights, e, t1).sent[0];
    assert reply == FlightPub.BookingRejectedMessage(e);
    assert created.1 - {id} == bookings by {
      assert (created.1 - {id}).Keys == bookings.Keys;
    }
  }

  /**
   * update, then updateBookingOnFlight on the flight side, then the reply
   * handled back. The booking is first set PENDING with the new count
   * without waiting for the flight side. What each case leaves in the
   * tables is stated by the lemmas below.
   */
  function UpdateSaga(bookings: map<int, Booking>, flights: map<int, FlightRecord>,
                      request: Booking, t0: int, t1: int, t2: int): (r: Tables)
    requires KeyedById(bookings)
  {
    var updated := BS.UpdateEffect(bookings, request, t0);
    if updated.2 == [] then Tables(flights, updated.1)
    else
      var onFlight := FS.UpdateBookingOnFlightEffect(flights, updated.2[0].event, t1);
      if onFlight.sent == [] then Tables(onFlight.rows, updated.1)
      else
        var reply := onFlight.sent[0].event;
        if reply.BookingUpdateConfirmed? then Tables(onFlight.rows, BS.ConfirmEffect(updated.1, reply.bookingId, t2).rows)
        else Tables(onFlight.rows, BS.RejectBookingUpdateEffect(updated.1, reply, t2).rows)
  }

  /** An update of an unknown booking throws before anything is sent. */
  lemma UpdateSagaUnknownBooking(bookings: map<int, Booking>, flights: map<int, FlightRecord>,
                                 request: Booking, t0: int, t1: int, t2: int)
    requires KeyedById(bookings) && request.id !in bookings
    ensures UpdateSaga(bookings, flights, request, t0, t1, t2) == Tables(flights, bookings)
  {
  }

  /** For an unknown flight the flight side throws and replies nothing: the PENDING row with the new count stays. */
  lemma UpdateSagaUnknownFlight(bookings: map<int, Booking>, flights: map<int, FlightRecord>,
                                request: Booking, t0: int, t1: int, t2: int)
    requires KeyedById(bookings) && request.id in bookings && bookings[request.id].flightId !in flights
    ensures var b := bookings[request.id];
            UpdateSaga(bookings, flights, request, t0, t1, t2)
              == Tables(flights, bookings[request.id := b.(status := PENDING, passengerCount := request.passengerCount, updatedAt := t0)])
  {
    assert BS.UpdateEffect(bookings, request, t0).2[0].event.flightId == bookings[request.id].flightId;
  }

  /** An accepted change moves the flight's seats by the change and confirms the new count. */
  lemma UpdateSagaAccepted(bookings: map<int, Booking>, flights: map<int, FlightRecord>,
                           request: Booking, t0: int, t1: int, t2: int)
    requires KeyedById(bookings) && request.id in bookings && bookings[request.id].flightId in flights
    requires FS.UpdateAccepted(flights[bookings[request.id].flightId].passengerCount,
                               request.passengerCount - bookings[request.id].passengerCount)
    ensures var b := bookings[request.id];
            var r := UpdateSaga(bookings, flights, request, t0, t1, t2);
            && r.flights.Keys == flights.Keys
            && r.flights[b.flightId].passengerCount
               == flights[b.flightId].passengerCount - (request.passengerCount - b.passengerCount)
            && (forall k :: k in flights && k != b.flightId ==> r.flights[k] == flights[k])
            && r.bookings == bookings[request.id := b.(status := CONFIRMED, passengerCount := request.passengerCount, updatedAt := t2)]
  {
    var b := bookings[request.id];
    var updated := BS.UpdateEffect(bookings, request, t0);
    var e := updated.2[0].event;
    assert e == BookingUpdated(request.id, b.flightId, b.passengerCount, request.passengerCount);
    assert FS.Change(e) == request.passengerCount - b.passengerCount;
    var reply := FS.UpdateBookingOnFlightEffect(flights, e, t1).sent[0];
    assert reply == FlightPub.BookingUpdateConfirmedMessage(e);
    var after := BS.ConfirmEffect(updated.1, request.id, t2).rows;
    assert after.Keys == bookings.Keys;
  }

  /** A refused change leaves the flight alone and puts the old count back, CONFIRMED. */
  lemma UpdateSagaRefused(bookings: map<int, Booking>, flights: map<int, FlightRecord>,
                          request: Booking, t0: int, t1: int, t2: int)
    requires KeyedById(bookings) && request.id in bookings && bookings[request.id].flightId in flights
    requires !FS.UpdateAccepted(flights[bookings[request.id].flightId].passengerCount,
                                request.passengerCount - bookings[request.id].passengerCount)
    ensures var b := bookings[request.id];
            UpdateSaga(bookings, flights, request, t0, t1, t2)
              == Tables(flights, bookings[request.id := b.(status := CONFIRMED, updatedAt := t2)])
  {
    var b := bookings[request.id];
    var updated := BS.UpdateEffect(bookings, request, t0);
    var e := updated.2[0].event;
    assert e == BookingUpdated(request.id, b.flightId, b.passengerCount, request.passengerCount);
    assert FS.Change(e) == request.passengerCount - b.passengerCount;
    var reply := FS.UpdateBookingOnFlightEffect(flights, e, t1).sent[0];
    assert reply == FlightPub.BookingUpdateRejectedMessage(e);
    var after := BS.RejectBookingUpdateEffect(updated.1, reply.event, t2).rows;
    assert after.Keys == bookings.Keys;
  }

  /**
   * cancel, then cancelReservation on the flight side (which does not
   * reply). The booking goes, and a known flight gets its seats back.
   */
  function CancelSaga(bookings: map<int, Booking>, flights: map<int, FlightRecord>, id: int, t1: int): (r: Tables)
    ensures id !in bookings ==> r == Tables(flights, bookings)
    ensures id in bookings ==> r.bookings == bookings - {id}
    ensures id in bookings && bookings[id].flightId !in flights ==> r.flights == flights
    ensures id in bookings && bookings[id].flightId in flights ==>
      var b := bookings[id];
      && r.flights.Keys == flights.Keys
      && r.flights[b.flightId].passengerCount == flights[b.flightId].passengerCount + b.passengerCount
      && (forall k :: k in flights && k != b.flightId ==> r.flights[k] == flights[k])
  {
    var cancelled := BS.CancelEffect(bookings, id);
    if cancelled.sent == [] then Tables(flights, cancelled.rows)
    else
      var released := FS.CancelReservationEffect(flights, cancelled.sent[0].event, t1);
      Tables(released.rows, cancelled.rows)
  }

  /**
   * deleteById on the flight side, then the FlightCancelled broadcast
   * handled on the booking side: the flight and every booking on it go.
   */
  function DeleteFlightSaga(bookings: map<int, Booking>, flights: map<int, FlightRecord>, id: int, t1: int): (r: Tables)
    requires KeyedById(bookings)
    ensures id !in flights ==> r == Tables(flights, bookings)
    ensures id in flights ==>
      && r.flights.Keys == flights.Keys - {id}
      && (forall k :: k in r.flights ==> r.flights[k] == flights[k])
      && (forall k :: k in r.bookings <==> k in bookings && bookings[k].flightId != id)
      && (forall k :: k in r.bookings ==> r.bookings[k] == bookings[k])
  {
    var deleted := FS.DeleteEffect(flights, id);
    if deleted.sent == [] then Tables(deleted.rows, bookings)
    else Tables(deleted.rows, BS.CancelBookingsOnFlightEffect(bookings, deleted.sent[0].event).rows)
  }

  /** Cancelling a confirmed booking undoes its creation: both tables' contents come back. */
  lemma CreateThenCancel(bookings: map<int, Booking>, flights: map<int, FlightRecord>,
                         id: int, request: Booking, t0: int, t1: int, t2: int, t3: int)
    requires KeyedById(bookings) && id !in bookings
    requires request.flightId in flights && flights[request.flightId].passengerCount >= request.passengerCount
    ensures var created := CreateSaga(bookings, flights, id, request, t0, t1, t2);
            var cancelled := CancelSaga(created.bookings, created.flights, id, t3);
            && cancelled.bookings == bookings
            && cancelled.flights.Keys == flights.Keys
            && cancelled.flights[request.flightId].passengerCount == flights[request.flightId].passengerCount
            && forall k :: k in flights && k != request.flightId ==> cancelled.flights[k] == flights[k]
  {
    var created := CreateSaga(bookings, flights, id, request, t0, t1, t2);
    assert created.bookings[id].flightId == request.flightId;
    assert created.bookings - {id} == bookings by {
      assert (created.bookings - {id}).Keys == bookings.Keys;
    }
  }

  /** A create saga never leaves an overbooked flight. */
  lemma CreateKeepsNoOverbooking(bookings: map<int, Booking>, flights: map<int, FlightRecord>,
                                 id: int, request: Booking, t0: int, t1: int, t2: int)
    requires KeyedById(bookings) && id !in bookings && FS.NoOverbooking(flights)
    ensures FS.NoOverbooking(CreateSaga(bookings, flights, id, request, t0, t1, t2).flights)
  {
    if request.flightId !in flights {
      CreateSagaUnknownFlight(bookings, flights, id, request, t0, t1, t2);
    } else if flights[request.flightId].passengerCount >= request.passengerCount {
      CreateSagaConfirms(bookings, flights, id, request, t0, t1, t2);
    } else {
      CreateSagaRejects(bookings, flights, id, request, t0, t1, t2);
    }
  }

  /** An update saga never leaves an overbooked flight. */
  lemma UpdateKeepsNoOverbooking(bookings: map<int, Booking>, flights: map<int, FlightRecord>,
                                 request: Booking, t0: int, t1: int, t2: int)
    requires KeyedById(bookings) && FS.NoOverbooking(flights)
    ensures FS.NoOverbooking(UpdateSaga(bookings, flights, request, t0, t1, t2).flights)
  {
    if request.id !in bookings {
      UpdateSagaUnknownBooking(bookings, flights, request, t0, t1, t2);
    } else if bookings[request.id].flightId !in flights {
      UpdateSagaUnknownFlight(bookings, flights, request, t0, t1, t2);
    } else {
      var b := bookings[request.id];
      var change := request.passengerCount - b.passengerCount;
      if FS.UpdateAccepted(flights[b.flightId].passengerCount, change) {
        FS.UpdateAcceptedIffFits(flights[b.flightId].passengerCount, change);
        UpdateSagaAccepted(bookings, flights, request, t0, t1, t2);
      } else {
        UpdateSagaRefused(bookings, flights, request, t0, t1, t2);
      }
    }
  }

  /** A cancel saga never leaves an overbooked flight, given a booking of non-negative size. */
  lemma CancelKeepsNoOverbooking(bookings: map<int, Booking>, flights: map<int, FlightRecord>, id: int, t1: int)
    requires FS.NoOverbooking(flights)
    requires id in bookings ==> bookings[id].passengerCount >= 0
    ensures FS.NoOverbooking(CancelSaga(bookings, flights, id, t1).flights)
  {
  }

  /** Deleting a flight never leaves an overbooked one. */
  lemma DeleteKeepsNoOverbooking(bookings: map<int, Booking>, flights: map<int, FlightRecord>, id: int, t1: int)
    requires KeyedById(bookings) && FS.NoOverbooking(flights)
    ensures FS.NoOverbooking(DeleteFlightSaga(bookings, flights, id, t1).flights)
  {
  }

  /** No run of the saga that starts without an overbooked flight ends with one. */
  lemma SagasKeepNoOverbooking(bookings: map<int, Booking>, flights: map<int, FlightRecord>,
                               id: int, request: Booking, t0: int, t1: int, t2: int)
    requires KeyedById(bookings) && FS.NoOverbooking(flights)
    ensures id !in bookings ==> FS.NoOverbooking(CreateSaga(bookings, flights, id, request, t0, t1, t2).flights)
    ensures FS.NoOverbooking(UpdateSaga(bookings, flights, request, t0, t1, t2).flights)
    ensures (id in bookings ==> bookings[id].passengerCount >= 0) ==>
      FS.NoOverbooking(CancelSaga(bookings, flights, id, t1).flights)
    ensures FS.NoOverbooking(DeleteFlightSaga(bookings, flights, id, t1).flights)
  {
    if id !in bookings {
      CreateKeepsNoOverbooking(bookings, flights, id, request, t0, t1, t2);
    }
    UpdateKeepsNoOverbooking(bookings, flights, request, t0, t1, t2);
    if id in bookings ==> bookings[id].passengerCount >= 0 {
      CancelKeepsNoOverbooking(bookings, flights, id, t1);
    }
    DeleteKeepsNoOverbooking(bookings, flights, id, t1);
  }
}

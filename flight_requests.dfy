/**
 * The request records that carry a flight's schedule: the flight service's
 * own FlightCreate and FlightUpdate, and the shared FlightCreateRequest and
 * FlightUpdateRequest. Each compact constructor rejects an arrival strictly
 * before the departure; the update records skip the check when either time
 * is null. Times are instants (epoch based); prices are in cents; every field
 * of a record may be null.
 */
module FlightRequests {
  import opened Wrappers

  /**
   * arrival.isBefore(departure) with no null guard: a null on either side
   * fails with a null dereference, a strictly earlier arrival with
   * IllegalArgumentException; equal times pass, since isBefore is strict.
   */
  function CheckTimeOrder(departure: Option<int>, arrival: Option<int>): (r: Outcome)
    ensures r == Normal <==> departure.Some? && arrival.Some? && departure.value <= arrival.value
    ensures (departure.None? || arrival.None?) ==> r == Thrown(NullPointer)
    ensures departure.Some? && arrival.Some? && arrival.value < departure.value ==> r == Thrown(IllegalArgument)
  {
    if arrival.None? || departure.None? then Thrown(NullPointer)
    else if arrival.value < departure.value then Thrown(IllegalArgument)
    else Normal
  }

  /** The same check guarded by "both times present": a missing time is never an error. */
  function CheckTimeOrderIfPresent(departure: Option<int>, arrival: Option<int>): (r: Outcome)
    ensures r == Normal <==> departure.None? || arrival.None? || departure.value <= arrival.value
    ensures r.Thrown? ==> r.error == IllegalArgument
  {
    if departure.Some? && arrival.Some? && arrival.value < departure.value then Thrown(IllegalArgument)
    else Normal
  }

  datatype FlightCreate = FlightCreate(
    number: Option<string>, fromCity: Option<string>, toCity: Option<string>,
    departure: Option<int>, arrival: Option<int>,
    passengerCount: Option<int>, ticketPrice: Option<int>)

  datatype FlightUpdate = FlightUpdate(
    id: Option<int>, number: Option<string>, fromCity: Option<string>, toCity: Option<string>,
    departure: Option<int>, arrival: Option<int>,
    passengerCount: Option<int>, ticketPrice: Option<int>)

  datatype FlightCreateRequest = FlightCreateRequest(
    number: Option<string>, fromCity: Option<string>, toCity: Option<string>,
    departure: Option<int>, arrival: Option<int>,
    passengerCount: Option<int>, ticketPrice: Option<int>)

  /** The shared update request has no passenger count: it cannot change a flight's capacity. */
  datatype FlightUpdateRequest = FlightUpdateRequest(
    id: Option<int>, number: Option<string>, fromCity: Option<string>, toCity: Option<string>,
    departure: Option<int>, arrival: Option<int>, ticketPrice: Option<int>)

  /** The FlightCreate constructor. */
  function NewFlightCreate(
    number: Option<string>, fromCity: Option<string>, toCity: Option<string>,
    departure: Option<int>, arrival: Option<int>,
    passengerCount: Option<int>, ticketPrice: Option<int>): (r: Result<FlightCreate>)
    ensures r.Success? <==> departure.Some? && arrival.Some? && departure.value <= arrival.value
    ensures r.Success? ==>
      r.value == FlightCreate(number, fromCity, toCity, departure, arrival, passengerCount, ticketPrice)
    ensures r.Failure? ==>
      r.error == (if departure.None? || arrival.None? then NullPointer else IllegalArgument)
  {
    match CheckTimeOrder(departure, arrival)
    case Normal => Success(FlightCreate(number, fromCity, toCity, departure, arrival, passengerCount, ticketPrice))
    case Thrown(e) => Failure(e)
  }

  /** The FlightUpdate constructor; its passenger count may stay null. */
  function NewFlightUpdate(
    id: Option<int>, number: Option<string>, fromCity: Option<string>, toCity: Option<string>,
    departure: Option<int>, arrival: Option<int>,
    passengerCount: Option<int>, ticketPrice: Option<int>): (r: Result<FlightUpdate>)
    ensures r.Success? <==> departure.None? || arrival.None? || departure.value <= arrival.value
    ensures r.Success? ==>
      r.value == FlightUpdate(id, number, fromCity, toCity, departure, arrival, passengerCount, ticketPrice)
    ensures r.Failure? ==> r.error == IllegalArgument
  {
    match CheckTimeOrderIfPresent(departure, arrival)
    case Normal => Success(FlightUpdate(id, number, fromCity, toCity, departure, arrival, passengerCount, ticketPrice))
    case Thrown(e) => Failure(e)
  }

  /** The FlightCreateRequest constructor. */
  function NewFlightCreateRequest(
    number: Option<string>, fromCity: Option<string>, toCity: Option<string>,
    departure: Option<int>, arrival: Option<int>,
    passengerCount: Option<int>, ticketPrice: Option<int>): (r: Result<FlightCreateRequest>)
    ensures r.Success? <==> departure.Some? && arrival.Some? && departure.value <= arrival.value
    ensures r.Success? ==>
      r.value == FlightCreateRequest(number, fromCity, toCity, departure, arrival, passengerCount, ticketPrice)
    ensures r.Failure? ==>
      r.error == (if departure.None? || arrival.None? then NullPointer else IllegalArgument)
  {
    match CheckTimeOrder(departure, arrival)
    case Normal => Success(FlightCreateRequest(number, fromCity, toCity, departure, arrival, passengerCount, ticketPrice))
    case Thrown(e) => Failure(e)
  }

  /** The FlightUpdateRequest constructor. */
  function NewFlightUpdateRequest(
    id: Option<int>, number: Option<string>, fromCity: Option<string>, toCity: Option<string>,
    departure: Option<int>, arrival: Option<int>, ticketPrice: Option<int>): (r: Result<FlightUpdateRequest>)
    ensures r.Success? <==> departure.None? || arrival.None? || departure.value <= arrival.value
    ensures r.Success? ==>
      r.value == FlightUpdateRequest(id, number, fromCity, toCity, departure, arrival, ticketPrice)
    ensures r.Failure? ==> r.error == IllegalArgument
  {
    match CheckTimeOrderIfPresent(departure, arrival)
    case Normal => Success(FlightUpdateRequest(id, number, fromCity, toCity, departure, arrival, ticketPrice))
    case Thrown(e) => Failure(e)
  }
}

/** Optional values, results and the exceptions the two services raise. */
module Wrappers {

  /** A Java reference that may be null. */
  datatype Option<T> = None | Some(value: T)

  /** The exceptions the core throws, one constructor per exception class. */
  datatype Error =
    | FlightNotFound(flightId: int)      // FlightNotFoundException
    | BookingNotFound(bookingId: int)    // BookingNotFoundException
    | NoSuchElement                      // Optional.orElseThrow() without a supplier
    | IllegalArgument                    // IllegalArgumentException
    | NullPointer                        // a null dereference

  /** The result of a Java method that returns a value or throws. */
  datatype Result<T> = Success(value: T) | Failure(error: Error)

  /** The result of a Java void method: it returns normally or throws. */
  datatype Outcome = Normal | Thrown(error: Error)
}

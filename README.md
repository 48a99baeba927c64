# AirlineApp reservation saga, modelled in Dafny

AirlineApp is two Spring services that share a RabbitMQ topic exchange called `booking-exchange`.

- **FlightManagement** keeps the `flights` table. Each row holds a flight's free seats in `passenger_count`.
- **TicketBooking** keeps the `bookings` table.

A booking is created, updated or cancelled on the booking side. The booking side publishes an event. The flight side reserves or releases seats, then replies with a confirmation or a rejection. The booking side settles the booking from that reply. Deleting a flight broadcasts `FlightCancelled`, and the booking side then deletes every booking on that flight.

This project models, per service:

- the entities: `Flight` as a class whose methods change its seat count, and `Booking` as a value
- the JDBC repositories: classes over a `map` from id to row, with each SQL statement stated as a function of the map
- the services: each operation is a method on the service class, specified by a pure *effect* function of the old table. An effect gives the outcome (a normal return, or the exception thrown), the new table and the messages published.
- the event factories and publishers: a publisher's outbox is a `seq<Message>` that every send appends to
- the listeners: each one calls one service method, then acks or nacks on a modelled `Channel`
- the RabbitMQ configuration of both sides: queues, bindings, type ids and the listener container
- the status converters and the request records' time-order checks

Two cross-service modules follow the messages end to end:

- **Routing** proves that every message one side publishes reaches exactly one queue of the other side. The listener on that queue takes exactly that event's class, and the message reaches no queue of the sender's own side.
- **Saga** composes the effects along the messages they actually send. It states what each complete exchange leaves in both tables.

Modelling choices:

- Clock readings (`LocalDateTime.now()`) are explicit `now` parameters.
- Times are integers, and ticket prices are integer cents.
- Java's `Long`/`Integer` are unbounded integers.
- Database ids come from a counter.

The source does not agree with itself in two places, and the model follows the callers:

- `BookingService.update` passes four arguments to `BookingEventPublisher.publishBookingUpdated`, whose declaration takes three (`TicketBooking/src/main/java/io/github/bagdad/ticketbooking/messaging/BookingEventPublisher.java:41`). The factory at `TicketBooking/src/main/java/io/github/bagdad/ticketbooking/messaging/BookingEventFactory.java:24` takes four, so the model's `BookingUpdated` carries the booking id, the flight id, the current count and the new count.
- `FlightService.deleteById` passes the flight id to `publishFlightCancelled`, which is declared to take a `Flight` and reads only its id (`FlightManagement/src/main/java/io/github/bagdad/flightmanagement/messaging/FlightEventPublisher.java:67-68`). The model's message function takes the id.

The service calls `publishBookingUpdateSucceeded` and `publishBookingUpdateFailed`. These are modelled as the publisher's `publishBookingUpdateConfirmed` and `publishBookingUpdateRejected`, which build exactly the events the booking side listens for.

A booking update does not wait for the flight side: `update` sets the new count and `PENDING` at once, and a rejection restores the old count.

Both listener containers run one consumer with manual acknowledgement.

Two readings the model rests on:

- The shared `BookingUpdated` class (`Models/src/main/java/io/github/bagdad/models/events/BookingUpdated.java:10-18`) has a single `passengerCountChange` field, which `FlightService.updateBookingOnFlight` reads at `FlightManagement/src/main/java/io/github/bagdad/flightmanagement/service/FlightService.java:128`. The booking side's factory fills the event from the current and the new count instead. The model's `BookingUpdated` carries both counts, and `FlightService.Change` reads the change as new count minus current count: positive when the booking grows, so that `book(change)` takes the extra seats. The finding below rests on that sign.
- `Booking.java` has no status field, and the `BookingStatus` enum is not part of this model's sources. The model's `Booking` has a status with the four values `PENDING`, `CONFIRMED`, `REJECTED` and `CANCELLED`, the states the saga moves a booking through; `StatusConverters.ValueOf` and `StatusConverters.StringToStatus` accept exactly those four names.

## Model

| member | source | states |
|---|---|---|
| FlightModel.Booked | FlightManagement/src/main/java/io/github/bagdad/flightmanagement/model/Flight.java:46-48 | booking n seats lowers the free seats by exactly n, leaves every other column alone, and never goes negative when canBook(n) held |
| FlightModel.Released | FlightManagement/src/main/java/io/github/bagdad/flightmanagement/model/Flight.java:50-52 | releasing n seats raises the free seats by exactly n and leaves every other column alone |
| FlightModel.BookReleaseInverse | FlightManagement/src/main/java/io/github/bagdad/flightmanagement/model/Flight.java:46-52 | book(n) and cancelReservation(n) undo each other, in either order |
| FlightModel.Flight.CanBook | FlightManagement/src/main/java/io/github/bagdad/flightmanagement/model/Flight.java:42-44 | canBook on the object agrees with the row predicate: free seats at least n |
| FlightModel.Flight.Book | FlightManagement/src/main/java/io/github/bagdad/flightmanagement/model/Flight.java:46-48 | the object's row becomes Booked(n) of the old row; free seats stay non-negative if canBook held before |
| FlightModel.Flight.CancelReservation | FlightManagement/src/main/java/io/github/bagdad/flightmanagement/model/Flight.java:50-52 | the object's row becomes Released(n) of the old row |
| FlightRepository.WriteAllButCreated | FlightManagement/src/main/java/io/github/bagdad/flightmanagement/repository/FlightRepository.java:90-118 | UPDATE by id writes every column except created_at; other rows and the key set are unchanged |
| FlightRepository.WritePassengerCount | FlightManagement/src/main/java/io/github/bagdad/flightmanagement/repository/FlightRepository.java:215-228 | only passenger_count and updated_at of the one row change; every other column and row is kept |
| FlightRepository.DeleteRow | FlightManagement/src/main/java/io/github/bagdad/flightmanagement/repository/FlightRepository.java:208-212 | DELETE by id removes exactly that key; the returned count is 1 if the row existed and 0 otherwise |
| FlightRepository.FlightTable.Save | FlightManagement/src/main/java/io/github/bagdad/flightmanagement/repository/FlightRepository.java:27-58 | the saved flight is a fresh object with a new id and the given columns; the table gains exactly that row |
| FlightRepository.FlightTable.FindById | FlightManagement/src/main/java/io/github/bagdad/flightmanagement/repository/FlightRepository.java:187-197 | empty exactly when the id is absent; otherwise a fresh object holding the stored row |
| FlightRepository.FlightTable.Update | FlightManagement/src/main/java/io/github/bagdad/flightmanagement/repository/FlightRepository.java:90-118 | the table becomes WriteAllButCreated of the old table; the argument is returned |
| FlightRepository.FlightTable.UpdatePassengerCount | FlightManagement/src/main/java/io/github/bagdad/flightmanagement/repository/FlightRepository.java:215-228 | the table becomes WritePassengerCount of the old table with the object's count and time |
| FlightRepository.FlightTable.DeleteById | FlightManagement/src/main/java/io/github/bagdad/flightmanagement/repository/FlightRepository.java:208-212 | the row count and the table are those of DeleteRow |
| FlightQuery.BuildQuery | FlightManagement/src/main/java/io/github/bagdad/flightmanagement/repository/FlightRepository.java:120-179 | the SQL is the base statement followed by one "AND column op ?" per present criterion, in the source's order, with one parameter per placeholder in the same order |
| FlightQuery.WherePlaceholders | FlightManagement/src/main/java/io/github/bagdad/flightmanagement/repository/FlightRepository.java:120-179 | the WHERE clauses of n criteria hold exactly n placeholders |
| FlightQuery.StatementPlaceholders | FlightManagement/src/main/java/io/github/bagdad/flightmanagement/repository/FlightRepository.java:120-184 | a statement built on a placeholder-free base has as many '?' as parameters |
| FlightQuery.BaseHasNoPlaceholder | FlightManagement/src/main/java/io/github/bagdad/flightmanagement/repository/FlightRepository.java:121 | the base statement holds no '?' |
| FlightQuery.CriteriaMeanMatches | FlightManagement/src/main/java/io/github/bagdad/flightmanagement/repository/FlightRepository.java:125-178 | a row satisfies every generated criterion if and only if it matches the query: non-blank text filters compare by equality, the eight bounds are inclusive, and absent filters do not constrain |
| FlightQuery.TextStepsMean | FlightManagement/src/main/java/io/github/bagdad/flightmanagement/repository/FlightRepository.java:125-138 | the number, from_city and to_city steps add exactly the equality tests of the filters that are present and not blank in the sense of Java's isBlank (every character Character.isWhitespace accepts, Unicode separators included) |
| FlightQuery.TimeStepsMean | FlightManagement/src/main/java/io/github/bagdad/flightmanagement/repository/FlightRepository.java:140-158 | the departure and arrival steps add exactly the inclusive bounds that are present |
| FlightQuery.CountStepsMean | FlightManagement/src/main/java/io/github/bagdad/flightmanagement/repository/FlightRepository.java:160-168 | the passenger_count steps add exactly the inclusive bounds that are present |
| FlightQuery.PriceStepsMean | FlightManagement/src/main/java/io/github/bagdad/flightmanagement/repository/FlightRepository.java:170-178 | the ticket_price steps add exactly the inclusive bounds that are present |
| FlightQuery.Query | FlightManagement/src/main/java/io/github/bagdad/flightmanagement/repository/FlightRepository.java:180-184 | the result holds only stored rows, unchanged, each satisfying every criterion |
| FlightQuery.QueryMeansMatches | FlightManagement/src/main/java/io/github/bagdad/flightmanagement/repository/FlightRepository.java:120-185 | a row is returned if and only if it is stored and matches the query |
| FlightQuery.NoCriteriaReturnsAll | FlightManagement/src/main/java/io/github/bagdad/flightmanagement/repository/FlightRepository.java:120-185 | an empty query builds the bare base statement with no parameters and returns every row |
| FlightQuery.BlankIsAbsent | FlightManagement/src/main/java/io/github/bagdad/flightmanagement/repository/FlightRepository.java:125-138 | a text filter that Java's isBlank calls blank (Unicode separators such as U+3000 included) generates the same criteria as an absent one |
| FlightService.ReserveEffect | FlightManagement/src/main/java/io/github/bagdad/flightmanagement/service/FlightService.java:89-108 | unknown flight: FlightNotFound, nothing changed or sent. Otherwise exactly one reply; it is BookingConfirmed if and only if the seats fit, in which case the flight's row is the old row with the seats taken and updated_at set, every other column kept, and other rows are kept; otherwise BookingRejected and the table is unchanged |
| FlightService.CancelReservationEffect | FlightManagement/src/main/java/io/github/bagdad/flightmanagement/service/FlightService.java:110-121 | unknown flight: FlightNotFound. Otherwise the flight's row is the old row with the seats returned unconditionally and updated_at set, every other column kept; other rows are kept, and nothing is published |
| FlightService.UpdateBookingOnFlightAsWritten | FlightManagement/src/main/java/io/github/bagdad/flightmanagement/service/FlightService.java:124-142 | the guard exactly as written: unknown flight throws; a known flight that is not already overbooked always gets BookingUpdateConfirmed, whatever its free seats, its row is the old row with the seats moved by the change and updated_at set, and the other rows are kept |
| FlightService.AsWrittenNeverRejects | FlightManagement/src/main/java/io/github/bagdad/flightmanagement/service/FlightService.java:128 | with non-negative free seats the written guard accepts every change |
| FlightService.AsWrittenOverbooks | FlightManagement/src/main/java/io/github/bagdad/flightmanagement/service/FlightService.java:128-137 | 3 free seats, a booking going from 2 to 9: the written guard confirms and leaves -4 free seats |
| FlightService.UpdateAcceptedIffFits | FlightManagement/src/main/java/io/github/bagdad/flightmanagement/service/FlightService.java:128 | the corrected guard accepts exactly when the flight can absorb the change (shrinking always fits) |
| FlightService.ApplyUpdate | FlightManagement/src/main/java/io/github/bagdad/flightmanagement/service/FlightService.java:130-141 | the two branches after the guard: an accepted change leaves the old row with the seats moved by exactly the change and updated_at set, every other column and row kept, and sends BookingUpdateConfirmed; a refused one keeps the table and sends BookingUpdateRejected |
| FlightService.UpdateBookingOnFlightEffect | FlightManagement/src/main/java/io/github/bagdad/flightmanagement/service/FlightService.java:124-142 | corrected guard. Unknown flight: FlightNotFound. Otherwise one reply, BookingUpdateConfirmed if and only if the change fits, in which case the row is the old row with the seats moved by the change and updated_at set, every other column and row kept; a refusal leaves the table alone. Never produces an overbooked flight |
| FlightService.CorrectedRefusesOverbooking | FlightManagement/src/main/java/io/github/bagdad/flightmanagement/service/FlightService.java:128-141 | the counterexample input is refused under the corrected guard and the flight keeps its 3 seats |
| FlightService.Merge | FlightManagement/src/main/java/io/github/bagdad/flightmanagement/service/FlightService.java:43-51 | each non-null field of the patch overwrites the loaded one and each null keeps it; created_at is kept and updated_at is refreshed |
| FlightService.MergeIdempotent | FlightManagement/src/main/java/io/github/bagdad/flightmanagement/service/FlightService.java:43-51 | applying the same patch twice equals applying it once |
| FlightService.MergeEmptyPatch | FlightManagement/src/main/java/io/github/bagdad/flightmanagement/service/FlightService.java:43-51 | an all-null patch changes only updated_at |
| FlightService.UpdateEffect | FlightManagement/src/main/java/io/github/bagdad/flightmanagement/service/FlightService.java:39-53 | unknown id: FlightNotFound, table unchanged; otherwise the merged row is stored and returned |
| FlightService.DeleteEffect | FlightManagement/src/main/java/io/github/bagdad/flightmanagement/service/FlightService.java:64-71 | unknown id: FlightNotFound before anything is published; otherwise one FlightCancelled for that id is sent and exactly that row goes |
| FlightService.ReserveThenCancelRestores | FlightManagement/src/main/java/io/github/bagdad/flightmanagement/service/FlightService.java:89-121 | reserving n seats and then releasing n gives the flight back its free seats; only updated_at differs |
| FlightService.HandlersKeepNoOverbooking | FlightManagement/src/main/java/io/github/bagdad/flightmanagement/service/FlightService.java:89-142 | reserve and the corrected update never leave a flight with negative free seats; neither does a release of a non-negative count |
| FlightService.FlightService.Create | FlightManagement/src/main/java/io/github/bagdad/flightmanagement/service/FlightService.java:30-37 | created_at and updated_at are both set to now; the table gains exactly the saved row under a new id |
| FlightService.FlightService.Update | FlightManagement/src/main/java/io/github/bagdad/flightmanagement/service/FlightService.java:39-53 | outcome and new table are those of UpdateEffect; nothing is published |
| FlightService.FlightService.ApplyPatch | FlightManagement/src/main/java/io/github/bagdad/flightmanagement/service/FlightService.java:43-51 | the loaded flight's row becomes Merge of its old row |
| FlightService.FlightService.DeleteById | FlightManagement/src/main/java/io/github/bagdad/flightmanagement/service/FlightService.java:64-71 | outcome, table and outbox are those of DeleteEffect |
| FlightService.FlightService.Reserve | FlightManagement/src/main/java/io/github/bagdad/flightmanagement/service/FlightService.java:89-108 | outcome, table and outbox are those of ReserveEffect |
| FlightService.FlightService.CancelReservation | FlightManagement/src/main/java/io/github/bagdad/flightmanagement/service/FlightService.java:110-121 | outcome, table and outbox are those of CancelReservationEffect |
| FlightService.FlightService.UpdateBookingOnFlight | FlightManagement/src/main/java/io/github/bagdad/flightmanagement/service/FlightService.java:124-142 | outcome, table and outbox are those of the corrected UpdateBookingOnFlightEffect |
| FlightEventFactory.BookingConfirmed | FlightManagement/src/main/java/io/github/bagdad/flightmanagement/messaging/FlightEventFactory.java:7-11 | a BookingConfirmed for the booking id |
| FlightEventFactory.BookingConfirmedDropsFlight | FlightManagement/src/main/java/io/github/bagdad/flightmanagement/messaging/FlightEventFactory.java:7-11 | the flight id argument does not reach the event |
| FlightEventFactory.BookingRejected | FlightManagement/src/main/java/io/github/bagdad/flightmanagement/messaging/FlightEventFactory.java:13-17 | a BookingRejected for the booking id |
| FlightEventFactory.FlightCancelled | FlightManagement/src/main/java/io/github/bagdad/flightmanagement/messaging/FlightEventFactory.java:19-23 | a FlightCancelled carrying the (non-null) flight id |
| FlightEventFactory.BookingUpdateRejected | FlightManagement/src/main/java/io/github/bagdad/flightmanagement/messaging/FlightEventFactory.java:25-32 | carries all four fields unchanged |
| FlightEventFactory.BookingUpdateConfirmed | FlightManagement/src/main/java/io/github/bagdad/flightmanagement/messaging/FlightEventFactory.java:34-39 | carries the booking and flight ids |
| FlightEventPublisher.FlightEventPublisher.PublishBookingConfirmed | FlightManagement/src/main/java/io/github/bagdad/flightmanagement/messaging/FlightEventPublisher.java:18-26 | appends one message on the exchange under "flight.booking-confirmed" |
| FlightEventPublisher.FlightEventPublisher.PublishBookingRejected | FlightManagement/src/main/java/io/github/bagdad/flightmanagement/messaging/FlightEventPublisher.java:28-36 | appends one message under "flight.booking-rejected" |
| FlightEventPublisher.FlightEventPublisher.PublishBookingUpdateConfirmed | FlightManagement/src/main/java/io/github/bagdad/flightmanagement/messaging/FlightEventPublisher.java:38-50 | appends one message under "flight.booking-update-confirmed" |
| FlightEventPublisher.FlightEventPublisher.PublishBookingUpdateRejected | FlightManagement/src/main/java/io/github/bagdad/flightmanagement/messaging/FlightEventPublisher.java:52-65 | appends one message under "flight.booking-update-rejected" echoing both counts |
| FlightEventPublisher.FlightEventPublisher.PublishFlightCancelled | FlightManagement/src/main/java/io/github/bagdad/flightmanagement/messaging/FlightEventPublisher.java:67-75 | appends one message under "flight.cancelled" |
| FlightEventListener.HandlerEffect | FlightManagement/src/main/java/io/github/bagdad/flightmanagement/messaging/FlightEventListener.java:19-59 | each of the three listener classes runs its own service handler: created runs reserve, updated runs updateBookingOnFlight under the corrected guard, cancelled runs cancelReservation |
| FlightEventListener.FlightEventListener.HandleBookingCreated | FlightManagement/src/main/java/io/github/bagdad/flightmanagement/messaging/FlightEventListener.java:19-31 | runs reserve, then one ack after a normal return or one nack without requeue after an exception |
| FlightEventListener.FlightEventListener.HandleBookingUpdated | FlightManagement/src/main/java/io/github/bagdad/flightmanagement/messaging/FlightEventListener.java:33-45 | runs updateBookingOnFlight under the corrected guard, then settles the delivery the same way |
| FlightEventListener.FlightEventListener.HandleBookingCancelled | FlightManagement/src/main/java/io/github/bagdad/flightmanagement/messaging/FlightEventListener.java:47-59 | runs cancelReservation, then settles the delivery the same way |
| FlightEventListener.FlightEventListener.Deliver | FlightManagement/src/main/java/io/github/bagdad/flightmanagement/messaging/FlightEventListener.java:19-59 | a delivery on a registered queue runs the listener of that queue's class |
| FlightRabbitConfig.QueuesDeclared | FlightManagement/src/main/java/io/github/bagdad/flightmanagement/config/RabbitConfig.java:41-78 | three durable queues with distinct names, each bound under a distinct key on the one exchange |
| FlightRabbitConfig.BindingsRoute | FlightManagement/src/main/java/io/github/bagdad/flightmanagement/config/RabbitConfig.java:56-78 | each of the three booking keys routes to its own queue alone |
| FlightRabbitConfig.BindingsAreBookingKeys | FlightManagement/src/main/java/io/github/bagdad/flightmanagement/config/RabbitConfig.java:56-78 | every bound key starts with "booking." |
| FlightRabbitConfig.TypeIdsInjective | FlightManagement/src/main/java/io/github/bagdad/flightmanagement/config/RabbitConfig.java:92-96 | the three type ids name three distinct classes, the listener parameter types |
| FlightRabbitConfig.SingleManualConsumer | FlightManagement/src/main/java/io/github/bagdad/flightmanagement/config/RabbitConfig.java:110-123 | exactly one consumer, manual acknowledgement |
| FlightRequests.CheckTimeOrder | FlightManagement/src/main/java/io/github/bagdad/flightmanagement/dto/request/FlightCreate.java:44-48 | passes exactly when both times are present and arrival is not before departure; a null time is a NullPointerException and an inverted pair an IllegalArgumentException |
| FlightRequests.CheckTimeOrderIfPresent | FlightManagement/src/main/java/io/github/bagdad/flightmanagement/dto/request/FlightUpdate.java:40-44 | passes exactly when a time is missing or arrival is not before departure; otherwise IllegalArgumentException |
| FlightRequests.NewFlightCreate | FlightManagement/src/main/java/io/github/bagdad/flightmanagement/dto/request/FlightCreate.java:44-48 | the record is built exactly when the time check passes, with the given fields; otherwise the check's exception |
| FlightRequests.NewFlightUpdate | FlightManagement/src/main/java/io/github/bagdad/flightmanagement/dto/request/FlightUpdate.java:40-44 | the record is built exactly when the partial time check passes |
| FlightRequests.NewFlightCreateRequest | Models/src/main/java/io/github/bagdad/models/requests/FlightCreateRequest.java:38-42 | same rule as FlightCreate |
| FlightRequests.NewFlightUpdateRequest | Models/src/main/java/io/github/bagdad/models/requests/FlightUpdateRequest.java:36-40 | same rule as FlightUpdate |
| BookingRepository.WriteBooking | TicketBooking/src/main/java/io/github/bagdad/ticketbooking/repository/BookingRepository.java:52-72 | UPDATE by id writes flight_id, passenger_count, status and updated_at; id and created_at, and every other row, are kept |
| BookingRepository.WriteConfirmation | TicketBooking/src/main/java/io/github/bagdad/ticketbooking/repository/BookingRepository.java:112-128 | writes flight_id, status and updated_at only; passenger_count is kept |
| BookingRepository.DeleteFlight | TicketBooking/src/main/java/io/github/bagdad/ticketbooking/repository/BookingRepository.java:139-146 | a row survives if and only if it is on another flight; survivors are unchanged |
| BookingRepository.FindById | TicketBooking/src/main/java/io/github/bagdad/ticketbooking/repository/BookingRepository.java:91-101 | present exactly when the id is stored, and then the stored row |
| BookingRepository.Query | TicketBooking/src/main/java/io/github/bagdad/ticketbooking/repository/BookingRepository.java:74-89 | without a filter every row; with one, exactly the rows of that passenger count, unchanged |
| BookingRepository.TotalWithout | TicketBooking/src/main/java/io/github/bagdad/ticketbooking/repository/BookingRepository.java:168-181 | the passenger total splits into any one row plus the total of the rest |
| BookingRepository.CalculateStatistics | TicketBooking/src/main/java/io/github/bagdad/ticketbooking/repository/BookingRepository.java:168-181 | the count is the number of rows, the total is 0 on an empty table and otherwise any row's count plus the rest's total |
| BookingRepository.StatisticsAfterDelete | TicketBooking/src/main/java/io/github/bagdad/ticketbooking/repository/BookingRepository.java:130-137 | deleting a row lowers the count by one and the total by that row's passengers |
| BookingRepository.StatisticsAfterWrite | TicketBooking/src/main/java/io/github/bagdad/ticketbooking/repository/BookingRepository.java:52-72 | rewriting a row keeps the count and moves the total by the change in its passengers |
| BookingRepository.BookingTable.Save | TicketBooking/src/main/java/io/github/bagdad/ticketbooking/repository/BookingRepository.java:27-50 | the saved booking is the given one under a new id, and the table gains exactly it |
| BookingRepository.BookingTable.Update | TicketBooking/src/main/java/io/github/bagdad/ticketbooking/repository/BookingRepository.java:52-72 | the table becomes WriteBooking of the old table; the argument is returned |
| BookingRepository.BookingTable.ConfirmBooking | TicketBooking/src/main/java/io/github/bagdad/ticketbooking/repository/BookingRepository.java:112-128 | the table becomes WriteConfirmation of the old table |
| BookingRepository.BookingTable.RejectBookingUpdate | TicketBooking/src/main/java/io/github/bagdad/ticketbooking/repository/BookingRepository.java:148-166 | the table becomes WriteBooking of the old table (the same four columns as update) |
| BookingRepository.BookingTable.DeleteById | TicketBooking/src/main/java/io/github/bagdad/ticketbooking/repository/BookingRepository.java:130-137 | exactly that key goes; an absent key is no error |
| BookingRepository.BookingTable.DeleteByFlightId | TicketBooking/src/main/java/io/github/bagdad/ticketbooking/repository/BookingRepository.java:139-146 | the table becomes DeleteFlight of the old table |
| BookingService.NewBooking | TicketBooking/src/main/java/io/github/bagdad/ticketbooking/service/BookingService.java:31-39 | the saved booking keeps the request's flight and count, is PENDING, and has created_at = updated_at = now |
| BookingService.CreateEffect | TicketBooking/src/main/java/io/github/bagdad/ticketbooking/service/BookingService.java:31-44 | the table gains exactly the new PENDING booking, and one BookingCreated with its id, flight and count is sent |
| BookingService.UpdateEffect | TicketBooking/src/main/java/io/github/bagdad/ticketbooking/service/BookingService.java:46-59 | unknown id: BookingNotFound, nothing changed or sent. Otherwise BookingUpdated with the stored count as current and the requested one as new is sent, and the row becomes PENDING with the requested count |
| BookingService.CancelEffect | TicketBooking/src/main/java/io/github/bagdad/ticketbooking/service/BookingService.java:69-76 | unknown id: BookingNotFound. Otherwise BookingCancelled with the row's flight and count is sent, and the row goes |
| BookingService.ConfirmEffect | TicketBooking/src/main/java/io/github/bagdad/ticketbooking/service/BookingService.java:86-95 | unknown id: NoSuchElementException. Otherwise the booking becomes CONFIRMED, keeps flight and count, and other rows are kept |
| BookingService.RejectEffect | TicketBooking/src/main/java/io/github/bagdad/ticketbooking/service/BookingService.java:97-101 | deletes only the rejected booking; a null event changes nothing; never throws |
| BookingService.CancelBookingsOnFlightEffect | TicketBooking/src/main/java/io/github/bagdad/ticketbooking/service/BookingService.java:103-107 | removes exactly the bookings on the cancelled flight, of any status; a null flight id changes nothing |
| BookingService.RejectBookingUpdateEffect | TicketBooking/src/main/java/io/github/bagdad/ticketbooking/service/BookingService.java:120-131 | unknown id: NoSuchElementException. Otherwise the count goes back to the event's current count and the booking is CONFIRMED |
| BookingService.RejectIdempotent | TicketBooking/src/main/java/io/github/bagdad/ticketbooking/service/BookingService.java:97-101 | a redelivered rejection changes nothing further |
| BookingService.CancelBookingsOnFlightIdempotent | TicketBooking/src/main/java/io/github/bagdad/ticketbooking/service/BookingService.java:103-107 | a redelivered FlightCancelled changes nothing further |
| BookingService.NoBookingOnCancelledFlight | TicketBooking/src/main/java/io/github/bagdad/ticketbooking/service/BookingService.java:103-107 | after the flight is cancelled no booking refers to it |
| BookingService.BookingService.Create | TicketBooking/src/main/java/io/github/bagdad/ticketbooking/service/BookingService.java:31-44 | result, table and outbox are those of CreateEffect under the new id |
| BookingService.BookingService.Update | TicketBooking/src/main/java/io/github/bagdad/ticketbooking/service/BookingService.java:46-59 | result, table and outbox are those of UpdateEffect |
| BookingService.BookingService.Cancel | TicketBooking/src/main/java/io/github/bagdad/ticketbooking/service/BookingService.java:69-76 | outcome, table and outbox are those of CancelEffect |
| BookingService.BookingService.ConfirmBooking | TicketBooking/src/main/java/io/github/bagdad/ticketbooking/service/BookingService.java:86-95 | outcome and table are those of ConfirmEffect for the event's booking |
| BookingService.BookingService.ConfirmBookingUpdate | TicketBooking/src/main/java/io/github/bagdad/ticketbooking/service/BookingService.java:109-118 | the same effect as confirmBooking |
| BookingService.BookingService.Confirm | TicketBooking/src/main/java/io/github/bagdad/ticketbooking/service/BookingService.java:86-95 | the shared body of the two confirmations: outcome and table are those of ConfirmEffect |
| BookingService.BookingService.Reject | TicketBooking/src/main/java/io/github/bagdad/ticketbooking/service/BookingService.java:97-101 | the table becomes that of RejectEffect |
| BookingService.BookingService.CancelBookingsOnFlight | TicketBooking/src/main/java/io/github/bagdad/ticketbooking/service/BookingService.java:103-107 | the table becomes that of CancelBookingsOnFlightEffect |
| BookingService.BookingService.RejectBookingUpdate | TicketBooking/src/main/java/io/github/bagdad/ticketbooking/service/BookingService.java:120-131 | outcome and table are those of RejectBookingUpdateEffect |
| BookingEventFactory.Created | TicketBooking/src/main/java/io/github/bagdad/ticketbooking/messaging/BookingEventFactory.java:10-15 | a BookingCreated with the booking's id, flight and count |
| BookingEventFactory.BookingCancelled | TicketBooking/src/main/java/io/github/bagdad/ticketbooking/messaging/BookingEventFactory.java:17-22 | a BookingCancelled with the booking's flight and count |
| BookingEventFactory.BookingCancelledForgetsBooking | TicketBooking/src/main/java/io/github/bagdad/ticketbooking/messaging/BookingEventFactory.java:17-22 | two bookings on the same flight with the same count give the same event: the booking id is not carried |
| BookingEventFactory.BookingUpdated | TicketBooking/src/main/java/io/github/bagdad/ticketbooking/messaging/BookingEventFactory.java:24-31 | carries all four fields unchanged |
| BookingEventPublisher.BookingEventPublisher.PublishBookingCreated | TicketBooking/src/main/java/io/github/bagdad/ticketbooking/messaging/BookingEventPublisher.java:21-29 | appends one message on the exchange under "booking.created" |
| BookingEventPublisher.BookingEventPublisher.PublishBookingCancelled | TicketBooking/src/main/java/io/github/bagdad/ticketbooking/messaging/BookingEventPublisher.java:31-39 | appends one message under "booking.cancelled" |
| BookingEventPublisher.BookingEventPublisher.PublishBookingUpdated | TicketBooking/src/main/java/io/github/bagdad/ticketbooking/messaging/BookingEventPublisher.java:41-49 | appends one message under "booking.updated" |
| BookingEventListener.HandlerEffect | TicketBooking/src/main/java/io/github/bagdad/ticketbooking/messaging/BookingEventListener.java:19-89 | each of the five listener classes runs its own service handler, and none of them publishes |
| BookingEventListener.BookingEventListener.HandleBookingConfirmed | TicketBooking/src/main/java/io/github/bagdad/ticketbooking/messaging/BookingEventListener.java:19-31 | runs confirmBooking, then one ack after a normal return or one nack without requeue after an exception |
| BookingEventListener.BookingEventListener.HandleBookingRejected | TicketBooking/src/main/java/io/github/bagdad/ticketbooking/messaging/BookingEventListener.java:33-45 | runs reject on the event, then acks |
| BookingEventListener.BookingEventListener.HandleFlightCancelled | TicketBooking/src/main/java/io/github/bagdad/ticketbooking/messaging/BookingEventListener.java:47-59 | runs cancelBookingsOnFlight, then acks |
| BookingEventListener.BookingEventListener.HandleBookingUpdateConfirmed | TicketBooking/src/main/java/io/github/bagdad/ticketbooking/messaging/BookingEventListener.java:61-73 | runs confirmBookingUpdate, then settles the delivery |
| BookingEventListener.BookingEventListener.HandleBookingUpdateRejected | TicketBooking/src/main/java/io/github/bagdad/ticketbooking/messaging/BookingEventListener.java:75-89 | runs rejectBookingUpdate, then settles the delivery |
| BookingEventListener.BookingEventListener.Deliver | TicketBooking/src/main/java/io/github/bagdad/ticketbooking/messaging/BookingEventListener.java:19-89 | a delivery on a registered queue runs the listener of that queue's class |
| BookingRabbitConfig.QueuesDeclared | TicketBooking/src/main/java/io/github/bagdad/ticketbooking/config/RabbitConfig.java:38-101 | five durable queues with distinct names, each bound under a distinct key on the one exchange |
| BookingRabbitConfig.BindingsAreFlightKeys | TicketBooking/src/main/java/io/github/bagdad/ticketbooking/config/RabbitConfig.java:63-101 | every bound key starts with "flight." |
| BookingRabbitConfig.TypeIdsInjective | TicketBooking/src/main/java/io/github/bagdad/ticketbooking/config/RabbitConfig.java:117-123 | the five type ids name five distinct classes, the listener parameter types |
| BookingRabbitConfig.SingleManualConsumer | TicketBooking/src/main/java/io/github/bagdad/ticketbooking/config/RabbitConfig.java:137-150 | exactly one consumer, manual acknowledgement |
| StatusConverters.Name | TicketBooking/src/main/java/io/github/bagdad/ticketbooking/config/BookingStatusToStringConverter.java:12-14 | every status name is a non-empty upper-case word |
| StatusConverters.NameInjective | TicketBooking/src/main/java/io/github/bagdad/ticketbooking/config/BookingStatusToStringConverter.java:12-14 | distinct statuses print distinct names |
| StatusConverters.ValueOf | TicketBooking/src/main/java/io/github/bagdad/ticketbooking/config/StringToBookingStatusConverter.java:17-19 | succeeds exactly on a status name; otherwise IllegalArgumentException |
| StatusConverters.StatusToString | TicketBooking/src/main/java/io/github/bagdad/ticketbooking/config/BookingStatusToStringConverter.java:12-14 | null maps to null and a status to its non-blank name |
| StatusConverters.StringToStatus | TicketBooking/src/main/java/io/github/bagdad/ticketbooking/config/StringToBookingStatusConverter.java:12-21 | null or blank (Java's isBlank, Unicode separators included) maps to null; otherwise the status whose name is the upper-cased text, or IllegalArgumentException when there is none |
| StatusConverters.ParsePrinted | TicketBooking/src/main/java/io/github/bagdad/ticketbooking/config/StringToBookingStatusConverter.java:12-21 | reading what was written gives back the status, null included |
| StatusConverters.PrintParsed | TicketBooking/src/main/java/io/github/bagdad/ticketbooking/config/BookingStatusToStringConverter.java:12-14 | writing what was read gives the upper-cased input |
| StatusConverters.ParseIgnoresCase | TicketBooking/src/main/java/io/github/bagdad/ticketbooking/config/StringToBookingStatusConverter.java:17 | reading is insensitive to upper-casing the input |
| StatusConverters.ParseLowerCase | TicketBooking/src/main/java/io/github/bagdad/ticketbooking/config/StringToBookingStatusConverter.java:17 | "confirmed" reads as CONFIRMED |
| JavaString.ToUpperCase | TicketBooking/src/main/java/io/github/bagdad/ticketbooking/config/StringToBookingStatusConverter.java:17 | same length, each character upper-cased on its own |
| JavaString.ToUpperCaseIdempotent | TicketBooking/src/main/java/io/github/bagdad/ticketbooking/config/StringToBookingStatusConverter.java:17 | upper-casing twice is upper-casing once |
| JavaString.ToUpperCaseKeepsBlank | TicketBooking/src/main/java/io/github/bagdad/ticketbooking/config/StringToBookingStatusConverter.java:13-17 | upper-casing keeps blankness, so the blank check before it loses nothing |
| Amqp.Route | TicketBooking/src/main/java/io/github/bagdad/ticketbooking/config/RabbitConfig.java:63-101 | a queue receives a message if and only if some binding names that queue, the exchange and the routing key |
| Amqp.Settlement | TicketBooking/src/main/java/io/github/bagdad/ticketbooking/messaging/BookingEventListener.java:19-31 | ack if and only if the handler returned normally, otherwise not requeued; always the delivery's own tag and never multiple |
| Amqp.Channel.Settle | FlightManagement/src/main/java/io/github/bagdad/flightmanagement/messaging/FlightEventListener.java:21-30 | the channel records exactly that settlement |
| Routing.FlightKeysMissFlightSide | FlightManagement/src/main/java/io/github/bagdad/flightmanagement/config/RabbitConfig.java:56-78 | a key starting with "flight." reaches no flight-side queue |
| Routing.BookingKeysMissBookingSide | TicketBooking/src/main/java/io/github/bagdad/ticketbooking/config/RabbitConfig.java:63-101 | a key starting with "booking." reaches no booking-side queue |
| Routing.RouteUnique | TicketBooking/src/main/java/io/github/bagdad/ticketbooking/config/RabbitConfig.java:63-101 | a binding whose pattern no other binding on the exchange shares routes its pattern to its queue alone |
| Routing.BookingListenersMatchBindings | TicketBooking/src/main/java/io/github/bagdad/ticketbooking/messaging/BookingEventListener.java:19-89 | the queue of each booking-side binding has a listener, taking the class that binding's key carries |
| Routing.FlightListenersMatchBindings | FlightManagement/src/main/java/io/github/bagdad/flightmanagement/messaging/FlightEventListener.java:19-59 | the queue of each flight-side binding has a listener, taking the class that binding's key carries |
| Routing.BookingSideDelivers | TicketBooking/src/main/java/io/github/bagdad/ticketbooking/config/RabbitConfig.java:63-101 | a message on a booking-side binding's key, of that binding's class, reaches exactly its listener and no flight-side queue |
| Routing.FlightSideDelivers | FlightManagement/src/main/java/io/github/bagdad/flightmanagement/config/RabbitConfig.java:56-78 | a message on a flight-side binding's key, of that binding's class, reaches exactly its listener and no booking-side queue |
| Routing.ReserveRepliesRoute | FlightManagement/src/main/java/io/github/bagdad/flightmanagement/service/FlightService.java:89-108 | either reply of reserve reaches the booking side |
| Routing.UpdateRepliesRoute | FlightManagement/src/main/java/io/github/bagdad/flightmanagement/service/FlightService.java:124-142 | either reply of updateBookingOnFlight, under the corrected guard, reaches the booking side |
| Routing.FlightCancelledRoutes | FlightManagement/src/main/java/io/github/bagdad/flightmanagement/messaging/FlightEventPublisher.java:67-75 | the FlightCancelled message reaches exactly one booking-side queue, whose listener takes FlightCancelled, and no flight-side queue |
| Routing.BookingConfirmedRoutes | FlightManagement/src/main/java/io/github/bagdad/flightmanagement/messaging/FlightEventPublisher.java:18-26 | the same for BookingConfirmed |
| Routing.BookingRejectedRoutes | FlightManagement/src/main/java/io/github/bagdad/flightmanagement/messaging/FlightEventPublisher.java:28-36 | the same for BookingRejected |
| Routing.BookingUpdateConfirmedRoutes | FlightManagement/src/main/java/io/github/bagdad/flightmanagement/messaging/FlightEventPublisher.java:38-50 | the same for BookingUpdateConfirmed |
| Routing.BookingUpdateRejectedRoutes | FlightManagement/src/main/java/io/github/bagdad/flightmanagement/messaging/FlightEventPublisher.java:52-65 | the same for BookingUpdateRejected |
| Routing.BookingCreatedRoutes | TicketBooking/src/main/java/io/github/bagdad/ticketbooking/messaging/BookingEventPublisher.java:21-29 | BookingCreated reaches exactly one flight-side queue, whose listener takes BookingCreated, and no booking-side queue |
| Routing.BookingCancelledRoutes | TicketBooking/src/main/java/io/github/bagdad/ticketbooking/messaging/BookingEventPublisher.java:31-39 | the same for BookingCancelled |
| Routing.BookingUpdatedRoutes | TicketBooking/src/main/java/io/github/bagdad/ticketbooking/messaging/BookingEventPublisher.java:41-49 | the same for BookingUpdated |
| Routing.FlightHandlerRepliesRoute | FlightManagement/src/main/java/io/github/bagdad/flightmanagement/messaging/FlightEventListener.java:19-59 | whatever a flight listener's handler replies reaches the booking side |
| Routing.DeleteBroadcastRoutes | FlightManagement/src/main/java/io/github/bagdad/flightmanagement/service/FlightService.java:64-71 | the broadcast of a deleted flight reaches the booking side |
| Routing.CreateEventRoutes | TicketBooking/src/main/java/io/github/bagdad/ticketbooking/service/BookingService.java:31-44 | the event create sends reaches the flight side |
| Routing.UpdateEventRoutes | TicketBooking/src/main/java/io/github/bagdad/ticketbooking/service/BookingService.java:46-59 | the event update sends reaches the flight side |
| Routing.CancelEventRoutes | TicketBooking/src/main/java/io/github/bagdad/ticketbooking/service/BookingService.java:69-76 | the event cancel sends reaches the flight side |
| Routing.RoutedReplyIsHandled | TicketBooking/src/main/java/io/github/bagdad/ticketbooking/messaging/BookingEventListener.java:19-89 | a routed reply is of a class the booking listeners take |
| Routing.RoutedEventIsHandled | FlightManagement/src/main/java/io/github/bagdad/flightmanagement/messaging/FlightEventListener.java:19-59 | a routed booking event is of a class the flight listeners take |
| Saga.CreateSagaUnknownFlight | TicketBooking/src/main/java/io/github/bagdad/ticketbooking/service/BookingService.java:31-44 | create for an unknown flight, with the flight side's reserve: the flight side throws and replies nothing, so the new booking stays PENDING and the flights are untouched |
| Saga.CreateSagaConfirms | TicketBooking/src/main/java/io/github/bagdad/ticketbooking/service/BookingService.java:31-44 | create, reserve and the confirmation handled: a booking that fits ends CONFIRMED and the flight loses exactly its seats, other flights unchanged |
| Saga.CreateSagaRejects | TicketBooking/src/main/java/io/github/bagdad/ticketbooking/service/BookingService.java:31-44 | create, reserve and the rejection handled: a booking that does not fit is deleted again, and both tables are as they were |
| Saga.UpdateSagaUnknownBooking | TicketBooking/src/main/java/io/github/bagdad/ticketbooking/service/BookingService.java:46-59 | an update of an unknown booking changes neither table |
| Saga.UpdateSagaUnknownFlight | TicketBooking/src/main/java/io/github/bagdad/ticketbooking/service/BookingService.java:46-59 | for an unknown flight the flight side replies nothing: the row stays PENDING with the new count |
| Saga.UpdateSagaAccepted | TicketBooking/src/main/java/io/github/bagdad/ticketbooking/service/BookingService.java:46-59 | update, updateBookingOnFlight under the corrected guard and the confirmation handled: the flight's seats move by exactly the change, and the booking is CONFIRMED with the new count |
| Saga.UpdateSagaRefused | TicketBooking/src/main/java/io/github/bagdad/ticketbooking/service/BookingService.java:46-59 | update, updateBookingOnFlight under the corrected guard and the refusal handled: the flight is unchanged, and the booking is CONFIRMED with its old count back |
| Saga.CancelSaga | TicketBooking/src/main/java/io/github/bagdad/ticketbooking/service/BookingService.java:69-76 | cancel with its event handled: the booking goes and a known flight gets its seats back |
| Saga.DeleteFlightSaga | FlightManagement/src/main/java/io/github/bagdad/flightmanagement/service/FlightService.java:64-71 | deleteById with its broadcast handled: the flight goes, and so does exactly every booking on it |
| Saga.CreateThenCancel | TicketBooking/src/main/java/io/github/bagdad/ticketbooking/service/BookingService.java:31-76 | cancelling a confirmed booking restores both tables: the booking is gone and the flight's seats are back |
| Saga.CreateKeepsNoOverbooking | FlightManagement/src/main/java/io/github/bagdad/flightmanagement/service/FlightService.java:89-108 | a create saga never leaves a flight with negative free seats |
| Saga.UpdateKeepsNoOverbooking | FlightManagement/src/main/java/io/github/bagdad/flightmanagement/service/FlightService.java:124-142 | an update saga, under the corrected guard, never leaves a flight with negative free seats |
| Saga.CancelKeepsNoOverbooking | FlightManagement/src/main/java/io/github/bagdad/flightmanagement/service/FlightService.java:110-121 | a cancel saga of a booking with a non-negative count never leaves a flight with negative free seats |
| Saga.DeleteKeepsNoOverbooking | FlightManagement/src/main/java/io/github/bagdad/flightmanagement/service/FlightService.java:64-71 | deleting a flight never leaves an overbooked one |
| Saga.SagasKeepNoOverbooking | FlightManagement/src/main/java/io/github/bagdad/flightmanagement/service/FlightService.java:89-142 | under the corrected guard, no complete create, update or flight deletion that starts without an overbooked flight ends with one; nor does a cancel of a booking with a non-negative count |

## Left out

- CSV import and export, the REST controllers and findAll/saveAll are left out: they are I/O or plain delegation. This covers FlightService.query, findAll, load and importFromCSV, and BookingService.query, findAll, load and calculateStatistics, which only call the repository.
- JDBC itself is left out. A table is a map keyed by id, and ids come from a counter in place of the database sequence.
- List order is left out: the query results are maps, so the order of rows in the returned list is not modelled.
- averagePassengerCount in the statistics is left out: it is floating point. The count and the total are modelled.
- Bean Validation annotations on the request records are left out. Only the records' own constructor checks are modelled.
- @Transactional is treated as a single atomic step. Concurrent deliveries are not modelled; both containers run one consumer.
- The exception rethrown as AmqpRejectAndDontRequeueException is modelled as the returned Outcome. Logging is left out.
- The type-id class mapper is left out on the sending side. Each side maps only the events it receives, so a sent message carries its class name; the model delivers the event value itself.
- Routing-key constants that the code declares but never uses (for example "booking.confirmed" and "booking.rejected" in the flight-side configuration) are left out.
- JavaString.ToUpperCase: maps only ASCII letters, because Java's Unicode case tables are not part of this model.
- FlightQuery.BuildQuery: states the parameter list and the SQL text, not the parameter types JDBC binds.
- Amqp.Route: matches patterns by equality, because no binding in either service uses a '*' or '#' word.
- Java's Integer and Long overflow is left out: counts and ids are unbounded integers.

## Findings

| source | as written | input that shows it | evidently intended | confidence | as-written member | corrected member |
|---|---|---|---|---|---|---|
| FlightManagement/src/main/java/io/github/bagdad/flightmanagement/service/FlightService.java:128 | `change > 0 \|\| flight.canBook(change)` accepts every growing booking without looking at free seats, and checks seats only for shrinking changes, which always fit | a flight with 3 free seats, BookingUpdated from 2 to 9 passengers (change 7): confirmed, and the flight is left with -4 free seats | `change <= 0 \|\| flight.canBook(change)`: a shrink always fits, a growth must fit the free seats | not executed | FlightService.UpdateBookingOnFlightAsWritten, FlightService.AsWrittenOverbooks, FlightService.AsWrittenNeverRejects | FlightService.UpdateBookingOnFlightEffect, FlightService.UpdateAcceptedIffFits, FlightService.CorrectedRefusesOverbooking |

/** The booking service's transport configuration: five inbound queues for flight replies. */
module BookingRabbitConfig {
  import opened Events
  import opened Amqp

  const EXCHANGE := "booking-exchange"

  const FLIGHT_CANCELLED_QUEUE := "flight.cancelled.queue"
  const BOOKING_CONFIRMED_QUEUE := "flight.booking-confirmed.queue"
  const BOOKING_REJECTED_QUEUE := "flight.booking-rejected.queue"
  const BOOKING_UPDATE_CONFIRMED_QUEUE := "flight.booking-update-confirmed.queue"
  const BOOKING_UPDATE_REJECTED_QUEUE := "flight.booking-update-rejected.queue"

  const Queues: seq<Queue> := [
    Queue(FLIGHT_CANCELLED_QUEUE, true),
    Queue(BOOKING_CONFIRMED_QUEUE, true),
    Queue(BOOKING_REJECTED_QUEUE, true),
    Queue(BOOKING_UPDATE_CONFIRMED_QUEUE, true),
    Queue(BOOKING_UPDATE_REJECTED_QUEUE, true)
  ]

  const Bindings: seq<Binding> := [
    Binding(FLIGHT_CANCELLED_QUEUE, EXCHANGE, "flight.cancelled"),
    Binding(BOOKING_CONFIRMED_QUEUE, EXCHANGE, "flight.booking-confirmed"),
    Binding(BOOKING_REJECTED_QUEUE, EXCHANGE, "flight.booking-rejected"),
    Binding(BOOKING_UPDATE_CONFIRMED_QUEUE, EXCHANGE, "flight.booking-update-confirmed"),
    Binding(BOOKING_UPDATE_REJECTED_QUEUE, EXCHANGE, "flight.booking-update-rejected")
  ]

  /** The class mapper's type ids. */
  const TypeIds: map<string, EventClass> := map[
    "booking_confirmed" := BookingConfirmedClass,
    "booking_rejected" := BookingRejectedClass,
    "flight_cancelled" := FlightCancelledClass,
    "booking_update_rejected" := BookingUpdateRejectedClass,
    "booking_update_confirmed" := BookingUpdateConfirmedClass
  ]

  const Container := ContainerSettings(1, 1, MANUAL)

  /** Five durable queues with distinct names, each bound under a distinct key on the one exchange. */
  lemma QueuesDeclared()
    ensures |Queues| == 5 && |Bindings| == 5
    ensures forall i :: 0 <= i < |Queues| ==> Queues[i].durable && Bindings[i].queue == Queues[i].name
    ensures forall i, j :: 0 <= i < j < |Queues| ==> Queues[i].name != Queues[j].name
    ensures forall i, j :: 0 <= i < j < |Bindings| ==> Bindings[i].pattern != Bindings[j].pattern
    ensures forall i :: 0 <= i < |Bindings| ==> Bindings[i].exchange == EXCHANGE
  {
  }

  /** Every bound pattern starts with "flight.". */
  lemma BindingsAreFlightKeys()
    ensures forall i :: 0 <= i < |Bindings| ==> "flight." <= Bindings[i].pattern
  {
  }

  /** The type ids name five distinct classes: the five listener parameter types. */
  lemma TypeIdsInjective()
    ensures Injective(TypeIds)
    ensures TypeIds.Values == {BookingConfirmedClass, BookingRejectedClass, FlightCancelledClass,
                               BookingUpdateRejectedClass, BookingUpdateConfirmedClass}
  {
    assert TypeIds.Keys == {"booking_confirmed", "booking_rejected", "flight_cancelled",
                            "booking_update_rejected", "booking_update_confirmed"};
  }

  /** One consumer at most, acknowledging manually. */
  lemma SingleManualConsumer()
    ensures Container.concurrentConsumers == Container.maxConcurrentConsumers == 1
    ensures Container.acknowledgeMode == MANUAL
  {
  }
}

/** The flight service's transport configuration: three inbound queues for booking events. */
module FlightRabbitConfig {
  import opened Events
  import opened Amqp

  const EXCHANGE := "booking-exchange"

  const BOOKING_CREATED_QUEUE := "booking.created.queue"
  const BOOKING_CANCELLED_QUEUE := "booking.cancelled.queue"
  const BOOKING_UPDATED_QUEUE := "booking.updated.queue"

  const Queues: seq<Queue> := [
    Queue(BOOKING_CREATED_QUEUE, true),
    Queue(BOOKING_CANCELLED_QUEUE, true),
    Queue(BOOKING_UPDATED_QUEUE, true)
  ]

  const Bindings: seq<Binding> := [
    Binding(BOOKING_CREATED_QUEUE, EXCHANGE, "booking.created"),
    Binding(BOOKING_CANCELLED_QUEUE, EXCHANGE, "booking.cancelled"),
    Binding(BOOKING_UPDATED_QUEUE, EXCHANGE, "booking.updated")
  ]

  /** The class mapper's type ids. */
  const TypeIds: map<string, EventClass> := map[
    "booking_created" := BookingCreatedClass,
    "booking_cancelled" := BookingCancelledClass,
    "booking_updated" := BookingUpdatedClass
  ]

  const Container := ContainerSettings(1, 1, MANUAL)

  /** Three durable queues with distinct names, each bound under a distinct key on the one exchange. */
  lemma QueuesDeclared()
    ensures |Queues| == 3
    ensures forall i :: 0 <= i < |Queues| ==> Queues[i].durable
    ensures forall i, j :: 0 <= i < j < |Queues| ==> Queues[i].name != Queues[j].name
    ensures |Bindings| == 3 && forall i :: 0 <= i < |Bindings| ==> Bindings[i].queue == Queues[i].name
    ensures forall i, j :: 0 <= i < j < |Bindings| ==> Bindings[i].pattern != Bindings[j].pattern
    ensures forall i :: 0 <= i < |Bindings| ==> Bindings[i].exchange == EXCHANGE
  {
    assert "booking.created"[8] != "booking.updated"[8];
    assert BOOKING_CREATED_QUEUE[8] != BOOKING_UPDATED_QUEUE[8];
  }

  /** Each of the three booking keys reaches its own queue and no other. */
  lemma BindingsRoute()
    ensures Route(Bindings, EXCHANGE, "booking.created") == {BOOKING_CREATED_QUEUE}
    ensures Route(Bindings, EXCHANGE, "booking.cancelled") == {BOOKING_CANCELLED_QUEUE}
    ensures Route(Bindings, EXCHANGE, "booking.updated") == {BOOKING_UPDATED_QUEUE}
  {
    assert "booking.created"[8] != "booking.updated"[8];
    assert Bindings[1..][1..][1..] == [];
    assert Route(Bindings[1..][1..], EXCHANGE, "booking.updated") == {BOOKING_UPDATED_QUEUE};
  }

  /** Every bound pattern starts with "booking.". */
  lemma BindingsAreBookingKeys()
    ensures forall i :: 0 <= i < |Bindings| ==> "booking." <= Bindings[i].pattern
  {
  }

  /** The type ids name three distinct classes: the three listener parameter types. */
  lemma TypeIdsInjective()
    ensures Injective(TypeIds)
    ensures TypeIds.Values == {BookingCreatedClass, BookingCancelledClass, BookingUpdatedClass}
  {
    assert "booking_created"[8] != "booking_updated"[8];
    assert TypeIds.Keys == {"booking_created", "booking_cancelled", "booking_updated"};
  }

  /** One consumer at most, acknowledging manually. */
  lemma SingleManualConsumer()
    ensures Container.concurrentConsumers == Container.maxConcurrentConsumers == 1
    ensures Container.acknowledgeMode == MANUAL
  {
  }
}

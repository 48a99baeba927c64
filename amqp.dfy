/**
 * The transport vocabulary both services configure: durable queues, topic
 * bindings, the type-id discriminator map, listener-container settings, and
 * the acknowledgement calls a listener makes on its channel.
 */
module Amqp {
  import opened Events
  import opened Wrappers

  datatype Queue = Queue(name: string, durable: bool)

  /** A binding of a queue to an exchange under a routing-key pattern. */
  datatype Binding = Binding(queue: string, exchange: string, pattern: string)

  /**
   * The queues a topic exchange delivers a message to. Neither service binds
   * a pattern with a '*' or '#' word, so a binding matches exactly when its
   * pattern equals the routing key.
   */
  function Route(bindings: seq<Binding>, exchange: string, key: string): (r: set<string>)
    ensures forall q :: q in r <==>
      exists i :: 0 <= i < |bindings| && bindings[i] == Binding(q, exchange, key)
  {
    if bindings == [] then {}
    else
      var b := bindings[0];
      var rest := Route(bindings[1..], exchange, key);
      assert forall q :: q in rest <==>
        exists i :: 1 <= i < |bindings| && bindings[i] == Binding(q, exchange, key) by {
        forall q ensures q in rest ==> exists i :: 1 <= i < |bindings| && bindings[i] == Binding(q, exchange, key) {
          if q in rest {
            var j :| 0 <= j < |bindings[1..]| && bindings[1..][j] == Binding(q, exchange, key);
            assert bindings[j + 1] == Binding(q, exchange, key);
          }
        }
        forall q ensures (exists i :: 1 <= i < |bindings| && bindings[i] == Binding(q, exchange, key)) ==> q in rest {
          if i :| 1 <= i < |bindings| && bindings[i] == Binding(q, exchange, key) {
            assert bindings[1..][i - 1] == Binding(q, exchange, key);
          }
        }
      }
      (if b.exchange == exchange && b.pattern == key then {b.queue} else {}) + rest
  }

  predicate Injective<K, V(==)>(m: map<K, V>) {
    forall a, b :: a in m && b in m && a != b ==> m[a] != m[b]
  }

  datatype AcknowledgeMode = NONE | MANUAL | AUTO

  datatype ContainerSettings = ContainerSettings(
    concurrentConsumers: int,
    maxConcurrentConsumers: int,
    acknowledgeMode: AcknowledgeMode)

  /** basicAck(deliveryTag, multiple) and basicNack(deliveryTag, multiple, requeue). */
  datatype ChannelCall =
    | Acked(deliveryTag: int, multiple: bool)
    | Nacked(deliveryTag: int, multiple: bool, requeue: bool)

  /**
   * How both services' listeners settle a delivery: a handler that returned
   * normally is acked, one that threw is nacked without requeue (and the
   * exception is rethrown). The tag is the delivery's own; multiple is false.
   */
  function Settlement(outcome: Outcome, deliveryTag: int): (c: ChannelCall)
    ensures c.Acked? <==> outcome.Normal?
    ensures c.Nacked? <==> outcome.Thrown?
    ensures c.deliveryTag == deliveryTag && !c.multiple
    ensures c.Nacked? ==> !c.requeue
  {
    if outcome.Normal? then Acked(deliveryTag, false) else Nacked(deliveryTag, false, false)
  }

  /** The consumer's channel; it records every acknowledgement call made on it. */
  class Channel {
    var calls: seq<ChannelCall>

    constructor ()
      ensures calls == []
    {
      calls := [];
    }

    method BasicAck(deliveryTag: int, multiple: bool)
      modifies this
      ensures calls == old(calls) + [Acked(deliveryTag, multiple)]
    {
      calls := calls + [Acked(deliveryTag, multiple)];
    }

    method BasicNack(deliveryTag: int, multiple: bool, requeue: bool)
      modifies this
      ensures calls == old(calls) + [Nacked(deliveryTag, multiple, requeue)]
    {
      calls := calls + [Nacked(deliveryTag, multiple, requeue)];
    }

    /** What every listener does after its handler: basicAck(tag, false) after a
        normal return, basicNack(tag, false, false) after an exception. */
    method Settle(outcome: Outcome, deliveryTag: int)
      modifies this
      ensures calls == old(calls) + [Settlement(outcome, deliveryTag)]
    {
      if outcome.Normal? {
        BasicAck(deliveryTag, false);
      } else {
        BasicNack(deliveryTag, false, false);
      }
    }
  }
}

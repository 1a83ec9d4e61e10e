/**
 * The broker as the model sees it: every call the client library makes is recorded in order,
 * and a channel is either open or closed. What the broker answers is a parameter of each
 * operation that calls it.
 */
module Broker {
  import opened RabbitTypes

  type ChannelId = nat

  /** A client call to the broker. */
  datatype Call =
    | ConnectionOpen(config: Config)
    | ChannelOpen
    | ExchangeDeclare(ch: ChannelId, exchangeSettings: Exchange)
    | QueueDeclare(ch: ChannelId, queueSettings: Queue)
    | QueueBind(ch: ChannelId, queue: string, key: string, exchange: string, noWait: bool)
    | BasicConsume(ch: ChannelId, queue: string, tag: string, autoAck: bool, exclusive: bool, noLocal: bool, noWait: bool)
    | BasicGet(ch: ChannelId, queue: string, autoAck: bool)
    | BasicPublish(ch: ChannelId, exchange: string, routingKey: string, mandatory: bool, immediate: bool, msg: Publishing)
    | BasicAck(deliveryTag: nat, multiple: bool)
    | BasicNack(deliveryTag: nat, multiple: bool, requeue: bool)
    | BasicCancel(ch: ChannelId, tag: string, noWait: bool)
    | ChannelClose(ch: ChannelId)
    | ConnectionClose

  class Broker {
    /** Every call made so far, oldest first. */
    var log: seq<Call>
    /** The channels that are closed. */
    var closed: set<ChannelId>

    constructor ()
      ensures log == [] && closed == {}
    {
      log := [];
      closed := {};
    }

    /** Records one call that leaves channel states as they are. */
    method Record(c: Call)
      modifies this
      ensures log == old(log) + [c] && closed == old(closed)
    {
      log := log + [c];
    }

    /** Channel.Close: the call is recorded and the channel is closed whatever the broker answers. */
    method Close(ch: ChannelId)
      modifies this
      ensures log == old(log) + [ChannelClose(ch)] && closed == old(closed) + {ch}
    {
      log := log + [ChannelClose(ch)];
      closed := closed + {ch};
    }

    /** The broker closes a channel on its own, as after a channel exception. */
    method ServerClose(ch: ChannelId)
      modifies this
      ensures log == old(log) && closed == old(closed) + {ch}
    {
      closed := closed + {ch};
    }
  }
}

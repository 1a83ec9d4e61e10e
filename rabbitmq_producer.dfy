/** Producers (rabbitmq/producer.go): a channel and the settings to publish with. */
module RabbitProducer {
  import opened Wrappers
  import opened Errors
  import opened RabbitTypes
  import opened Broker
  import opened RabbitCore

  /**
   * Producer: its UUID, its channel and its session. Nothing ever changes a producer once
   * built (its close watcher only logs), so it is a value.
   */
  datatype Producer = Producer(uuid: string, channel: ChannelId, session: Session)

  /** What NewProducer gets from the outside: the channel the connection opens and the random UUID. */
  datatype ProducerSetup = ProducerSetup(channel: Result<ChannelId, Error>, uuid: Result<string, Error>)

  const ConnectionMissingMsg: string := "[RabbitMQ.Producer] RabbitMQ Connection is missing"
  const ChannelCreationMsg: string := "[RabbitMQ.Producer] Channel creation error"
  const UuidGenerationMsg: string := "[RabbitMQ.Producer] UUID generation error"
  const OptionsMissingMsg: string := "[RabbitMQ.Producer] PublishingOptions is missing"

  /**
   * What NewProducer(instance, e, q, po) yields: it needs a connection, then a channel, then a
   * UUID, each failure with its own message, and the producer carries no binding and the
   * publishing options it was given.
   */
  function NewProducerResult(connected: bool, e: Exchange, q: Queue, po: PublishingOptions, setup: ProducerSetup)
    : (p: Result<Producer, Error>)
    ensures !connected ==> p == Err(Failure(ConnectionMissingMsg))
    ensures connected && setup.channel.Err? ==> p == Err(Wrapped(ChannelCreationMsg, setup.channel.error))
    ensures connected && setup.channel.Ok? && setup.uuid.Err? ==> p == Err(Wrapped(UuidGenerationMsg, setup.uuid.error))
    ensures p.Ok? <==> connected && setup.channel.Ok? && setup.uuid.Ok?
    ensures p.Ok? ==> p.value.uuid == setup.uuid.value && p.value.channel == setup.channel.value &&
                      p.value.session == Session(e, q, NoBinding, None, Some(po))
  {
    if !connected then Err(Failure(ConnectionMissingMsg))
    else if setup.channel.Err? then Err(Wrapped(ChannelCreationMsg, setup.channel.error))
    else if setup.uuid.Err? then Err(Wrapped(UuidGenerationMsg, setup.uuid.error))
    else Ok(Producer(setup.uuid.value, setup.channel.value, Session(e, q, NoBinding, None, Some(po))))
  }

  /** NewProducer: opens a channel when connected, and declares nothing (the topology is the consumers' business). */
  method NewProducer(r: RabbitMQ, e: Exchange, q: Queue, po: PublishingOptions, setup: ProducerSetup)
    returns (p: Result<Producer, Error>)
    modifies r.broker
    ensures p == NewProducerResult(r.connected, e, q, po, setup)
    ensures r.broker.log == old(r.broker.log) + if r.connected then [ChannelOpen] else []
    ensures r.broker.closed == old(r.broker.closed)
  {
    if !r.connected {
      return Err(Failure(ConnectionMissingMsg));
    }
    r.broker.Record(ChannelOpen);
    if setup.channel.Err? {
      return Err(Wrapped(ChannelCreationMsg, setup.channel.error));
    }
    if setup.uuid.Err? {
      return Err(Wrapped(UuidGenerationMsg, setup.uuid.error));
    }
    return Ok(Producer(setup.uuid.value, setup.channel.value, Session(e, q, NoBinding, None, Some(po))));
  }

  /**
   * GetRoutingKey: with the default (empty-named) exchange, the queue name, which every queue
   * is bound under; otherwise the configured routing key, even when that is empty.
   */
  function GetRoutingKey(p: Producer): (key: string)
    requires p.session.publishingOptions.Some?
    ensures p.session.exchange.name == "" ==> key == p.session.queue.name
    ensures p.session.exchange.name != "" ==> key == p.session.publishingOptions.value.routingKey
  {
    if p.session.exchange.name == "" then p.session.queue.name else p.session.publishingOptions.value.routingKey
  }

  /**
   * Publish(ctx, publishing): one publish on the producer's channel to its exchange under
   * GetRoutingKey, with its mandatory/immediate flags and the publishing as given; the
   * broker's answer is the result.
   */
  method Publish(broker: Broker, p: Producer, publishing: Publishing, reply: Option<Error>)
    returns (err: Option<Error>)
    requires p.session.publishingOptions.Some?
    modifies broker
    ensures broker.log == old(broker.log) +
      [BasicPublish(p.channel, p.session.exchange.name, GetRoutingKey(p),
               p.session.publishingOptions.value.mandatory, p.session.publishingOptions.value.immediate, publishing)]
    ensures broker.closed == old(broker.closed)
    ensures err == reply
  {
    var po := p.session.publishingOptions.value;
    broker.Record(BasicPublish(p.channel, p.session.exchange.name, GetRoutingKey(p), po.mandatory, po.immediate, publishing));
    return reply;
  }

  /**
   * Shutdown: without publishing options, an error and the channel is left alone; otherwise
   * shutdownChannel with the publishing tag, whose error is returned.
   */
  method Shutdown(broker: Broker, p: Producer, replies: ChannelShutdownReplies) returns (err: Option<Error>)
    modifies broker
    ensures p.session.publishingOptions.None? ==>
      err == Some(Failure(OptionsMissingMsg)) && broker.log == old(broker.log) && broker.closed == old(broker.closed)
    ensures p.session.publishingOptions.Some? ==>
      broker.log == old(broker.log) + ShutdownChannelCalls(p.channel, p.session.publishingOptions.value.tag, replies) &&
      err == ShutdownChannelVerdict(replies)
    ensures p.session.publishingOptions.Some? && Tolerated(replies.cancel) ==> broker.closed == old(broker.closed) + {p.channel}
    ensures p.session.publishingOptions.Some? && !Tolerated(replies.cancel) ==> broker.closed == old(broker.closed)
  {
    if p.session.publishingOptions.None? {
      return Some(Failure(OptionsMissingMsg));
    }
    err := ShutdownChannel(broker, p.channel, p.session.publishingOptions.value.tag, replies);
  }
}

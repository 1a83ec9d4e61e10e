/**
 * Consumers (rabbitmq/consumer.go): a channel with a declared topology, a delivery handler and
 * the manual acknowledgement policy, plus the loop that replaces a lost channel.
 */
module RabbitConsumer {
  import opened Wrappers
  import opened Errors
  import opened RabbitTypes
  import opened Broker
  import opened RabbitCore

  const ConnectionNilMsg: string := "[RabbitMQ.Consumer] connection is nil"
  const GetChannelMsg: string := "[RabbitMQ.Consumer] get channel error"

  /** What the broker answers to the three declarations Register makes. */
  datatype DeclareReplies = DeclareReplies(exchange: Option<Error>, queue: Option<Error>, bind: Option<Error>)

  /** The answers in the order the declarations are made. */
  function InOrder(replies: DeclareReplies): seq<Option<Error>>
  {
    [replies.exchange, replies.queue, replies.bind]
  }

  /** The whole topology: the exchange, the queue, then the binding of the queue to the exchange. */
  function FullDeclaration(ch: ChannelId, e: Exchange, q: Queue, bo: BindingOptions): seq<Call>
  {
    [ExchangeDeclare(ch, e), QueueDeclare(ch, q), QueueBind(ch, q.name, bo.routingKey, e.name, bo.noWait)]
  }

  /**
   * The declarations Register makes: a prefix of the whole topology, in order, which goes on
   * exactly as long as every declaration so far succeeded.
   */
  function DeclareCalls(ch: ChannelId, e: Exchange, q: Queue, bo: BindingOptions, replies: DeclareReplies): (calls: seq<Call>)
    ensures 1 <= |calls| <= 3 && calls == FullDeclaration(ch, e, q, bo)[..|calls|]
    ensures forall i :: 0 <= i < |calls| - 1 ==> InOrder(replies)[i].None?
    ensures |calls| < 3 ==> InOrder(replies)[|calls| - 1].Some?
  {
    var full := FullDeclaration(ch, e, q, bo);
    if replies.exchange.Some? then full[..1]
    else if replies.queue.Some? then full[..2]
    else full
  }

  /** Register's result: the answer to the last declaration made, that is the first failure, if any. */
  function DeclareVerdict(replies: DeclareReplies): (err: Option<Error>)
    ensures err.None? <==> replies.exchange.None? && replies.queue.None? && replies.bind.None?
  {
    if replies.exchange.Some? then replies.exchange
    else if replies.queue.Some? then replies.queue
    else replies.bind
  }

  /** Register returns the answer to the last declaration it made: the first failure stops it. */
  lemma RegisterStopsAtFirstError(ch: ChannelId, e: Exchange, q: Queue, bo: BindingOptions, replies: DeclareReplies)
    ensures DeclareVerdict(replies) == InOrder(replies)[|DeclareCalls(ch, e, q, bo, replies)| - 1]
  {
  }

  /** When the manual acknowledgement policy applies: no auto-ack, and AckByError set. */
  predicate ManualAck(co: ConsumerOptions)
  {
    !co.autoAck && co.ackByError
  }

  /**
   * The acknowledgement calls for one delivery: under the manual policy exactly one, a
   * Nack(multiple = false, requeue = false) when the handler failed and an Ack(multiple = false)
   * when it succeeded; otherwise none.
   */
  function Settlement(co: ConsumerOptions, d: Delivery, handlerErr: Option<Error>): (calls: seq<Call>)
    ensures |calls| == if ManualAck(co) then 1 else 0
    ensures |calls| == 1 && handlerErr.Some? ==> calls[0] == BasicNack(d.deliveryTag, false, false)
    ensures |calls| == 1 && handlerErr.None? ==> calls[0] == BasicAck(d.deliveryTag, false)
  {
    if !ManualAck(co) then []
    else if handlerErr.Some? then [BasicNack(d.deliveryTag, false, false)]
    else [BasicAck(d.deliveryTag, false)]
  }

  /** The acknowledgement calls for a run of deliveries, in delivery order. */
  function SettleAll(co: ConsumerOptions, ds: seq<Delivery>, outcomes: seq<Option<Error>>): seq<Call>
    requires |ds| == |outcomes|
  {
    if |ds| == 0 then []
    else SettleAll(co, ds[..|ds| - 1], outcomes[..|ds| - 1]) + Settlement(co, ds[|ds| - 1], outcomes[|ds| - 1])
  }

  /** The settlements of one more delivery follow those of the ones before it. */
  lemma SettleAllStep(co: ConsumerOptions, ds: seq<Delivery>, outcomes: seq<Option<Error>>, i: nat)
    requires i < |ds| == |outcomes|
    ensures SettleAll(co, ds[..i + 1], outcomes[..i + 1]) == SettleAll(co, ds[..i], outcomes[..i]) + Settlement(co, ds[i], outcomes[i])
  {
    assert ds[..i + 1][..i] == ds[..i] && outcomes[..i + 1][..i] == outcomes[..i];
  }

  /** Under the manual policy every delivery is settled exactly once, in order, under its own tag; otherwise none is. */
  lemma {:induction false} SettleAllShape(co: ConsumerOptions, ds: seq<Delivery>, outcomes: seq<Option<Error>>)
    requires |ds| == |outcomes|
    ensures ManualAck(co) ==> |SettleAll(co, ds, outcomes)| == |ds|
    ensures ManualAck(co) ==> forall i :: 0 <= i < |ds| ==> SettleAll(co, ds, outcomes)[i] == Settlement(co, ds[i], outcomes[i])[0]
    ensures !ManualAck(co) ==> SettleAll(co, ds, outcomes) == []
  {
    if |ds| > 0 {
      var n := |ds| - 1;
      SettleAllShape(co, ds[..n], outcomes[..n]);
      if ManualAck(co) {
        forall i | 0 <= i < |ds|
          ensures SettleAll(co, ds, outcomes)[i] == Settlement(co, ds[i], outcomes[i])[0]
        {
          if i < n {
            assert ds[..n][i] == ds[i] && outcomes[..n][i] == outcomes[i];
          }
        }
      }
    }
  }

  /**
   * How a consumer's channel watcher ends its work on one close event: stopped, a new channel
   * after some attempts, the process exiting, or a panic on a nil connection.
   */
  datatype RecoveryOutcome = WatcherStopped | Recovered(attempts: nat) | RecoveryFatal | RecoveryPanicked

  /** The index of the first channel the connection opened, if any. */
  function FirstOpened(replies: seq<Result<ChannelId, Error>>): (i: Option<nat>)
    ensures i.Some? ==> i.value < |replies| && replies[i.value].Ok? &&
                        forall j :: 0 <= j < i.value ==> replies[j].Err?
    ensures i.None? ==> forall j :: 0 <= j < |replies| ==> replies[j].Err?
  {
    if |replies| == 0 then None
    else if replies[0].Ok? then Some(0)
    else match FirstOpened(replies[1..])
      case None => None
      case Some(k) => Some(k + 1)
  }

  lemma {:induction false} FirstOpenedAt(replies: seq<Result<ChannelId, Error>>, i: nat)
    requires i < |replies| && replies[i].Ok?
    requires forall j :: 0 <= j < i ==> replies[j].Err?
    ensures FirstOpened(replies) == Some(i)
  {
    if i > 0 {
      FirstOpenedAt(replies[1..], i - 1);
    }
  }

  /** What Get's basic.get returns: an error, no message, or a message. */
  datatype GetReply = GetFailed(error: Error) | GetEmpty | GetMessage(delivery: Delivery)

  /** Consumer. */
  class Consumer {
    const uuid: string
    const rmq: RabbitMQ
    const session: ConsumerSession
    var channel: ChannelId
    /** c.deliveries is not nil: the broker consume call succeeded. */
    var consuming: bool
    var handler: Option<Handler>
    /** c.done has been closed. */
    var doneClosed: bool

    constructor (uuid: string, rmq: RabbitMQ, channel: ChannelId, session: ConsumerSession)
      ensures this.uuid == uuid && this.rmq == rmq && this.channel == channel && this.session == session
      ensures !consuming && handler.None? && !doneClosed
    {
      this.uuid := uuid;
      this.rmq := rmq;
      this.channel := channel;
      this.session := session;
      consuming := false;
      handler := None;
      doneClosed := false;
    }

    function Options(): ConsumerOptions
    {
      session.consumerOptions.value
    }

    /** Register: declares the exchange, then the queue, then the binding, stopping at the first failure. */
    method Register(replies: DeclareReplies) returns (err: Option<Error>)
      modifies rmq.broker
      ensures rmq.broker.log == old(rmq.broker.log) +
        DeclareCalls(channel, session.exchange, session.queue, session.bindingOptions, replies)
      ensures rmq.broker.closed == old(rmq.broker.closed)
      ensures err == DeclareVerdict(replies)
    {
      var e := session.exchange;
      var q := session.queue;
      var bo := session.bindingOptions;
      rmq.broker.Record(ExchangeDeclare(channel, e));
      if replies.exchange.Some? {
        return replies.exchange;
      }
      rmq.broker.Record(QueueDeclare(channel, q));
      if replies.queue.Some? {
        return replies.queue;
      }
      rmq.broker.Record(QueueBind(channel, q.name, bo.routingKey, e.name, bo.noWait));
      return replies.bind;
    }

    /**
     * Consume(handler): starts consuming from the queue. A refused consume is returned, with no
     * handler installed and no delivery stream; otherwise the handler is installed.
     */
    method Consume(h: Handler, reply: Option<Error>) returns (err: Option<Error>)
      modifies this`consuming, this`handler, rmq.broker
      ensures rmq.broker.log == old(rmq.broker.log) +
        [BasicConsume(channel, session.queue.name, Options().tag, Options().autoAck,
                      Options().exclusive, Options().noLocal, Options().noWait)]
      ensures rmq.broker.closed == old(rmq.broker.closed)
      ensures err == reply
      ensures reply.Some? ==> !consuming && handler == old(handler)
      ensures reply.None? ==> consuming && handler == Some(h)
    {
      var co := Options();
      rmq.broker.Record(BasicConsume(channel, session.queue.name, co.tag, co.autoAck, co.exclusive, co.noLocal, co.noWait));
      consuming := reply.None?;
      if reply.Some? {
        return reply;
      }
      handler := Some(h);
      return None;
    }

    /**
     * The delivery loop: each delivery is handed to the handler and then settled by the
     * acknowledgement policy. `outcomes[i]` is what the handler returns for `ds[i]`.
     */
    method Deliver(ds: seq<Delivery>, outcomes: seq<Option<Error>>)
      requires consuming && handler.Some? && |ds| == |outcomes|
      modifies rmq.broker
      ensures rmq.broker.log == old(rmq.broker.log) + SettleAll(Options(), ds, outcomes)
      ensures rmq.broker.closed == old(rmq.broker.closed)
    {
      var co := Options();
      for i := 0 to |ds|
        invariant rmq.broker.log == old(rmq.broker.log) + SettleAll(co, ds[..i], outcomes[..i])
        invariant rmq.broker.closed == old(rmq.broker.closed)
      {
        ghost var log0 := rmq.broker.log;
        var settle := Settlement(co, ds[i], outcomes[i]);
        if |settle| == 1 {
          rmq.broker.Record(settle[0]);
          assert settle == [settle[0]];
        }
        SettleAllStep(co, ds, outcomes, i);
        assert rmq.broker.log == log0 + settle;
      }
      assert ds[..|ds|] == ds && outcomes[..|outcomes|] == outcomes;
    }

    /**
     * HandleError: after a close event with an error, up to five attempts to open a new channel,
     * the first success replacing the consumer's channel and a fifth failure being fatal. A nil
     * event (the channel closed by the worker itself) stops the watcher. Without a connection the
     * first attempt calls Channel on nil and panics. The new channel is neither declared nor
     * consumed again, and the watcher keeps reading the close events of the old channel.
     */
    method HandleError(event: Option<Error>, replies: seq<Result<ChannelId, Error>>) returns (outcome: RecoveryOutcome)
      requires |replies| == MaxAttempts
      modifies this`channel, rmq.broker
      ensures event.None? ==> outcome == WatcherStopped && channel == old(channel) && rmq.broker.log == old(rmq.broker.log)
      ensures event.Some? && !rmq.connected ==>
        outcome == RecoveryPanicked && channel == old(channel) && rmq.broker.log == old(rmq.broker.log)
      ensures event.Some? && rmq.connected && FirstOpened(replies).Some? ==>
        var k := FirstOpened(replies).value;
        outcome == Recovered(k + 1) && channel == replies[k].value &&
        rmq.broker.log == old(rmq.broker.log) + seq(k + 1, _ => ChannelOpen)
      ensures event.Some? && rmq.connected && FirstOpened(replies).None? ==>
        outcome == RecoveryFatal && channel == old(channel) &&
        rmq.broker.log == old(rmq.broker.log) + seq(MaxAttempts, _ => ChannelOpen)
      ensures rmq.broker.closed == old(rmq.broker.closed)
    {
      if event.None? {
        return WatcherStopped;
      }
      if !rmq.connected {
        return RecoveryPanicked;
      }
      var i := 0;
      while i < MaxAttempts
        invariant 0 <= i <= MaxAttempts
        invariant forall j :: 0 <= j < i ==> replies[j].Err?
        invariant channel == old(channel)
        invariant rmq.broker.log == old(rmq.broker.log) + seq(i, _ => ChannelOpen)
        invariant rmq.broker.closed == old(rmq.broker.closed)
      {
        rmq.broker.Record(ChannelOpen);
        assert seq(i + 1, _ => ChannelOpen) == seq(i, _ => ChannelOpen) + [ChannelOpen];
        if replies[i].Ok? {
          channel := replies[i].value;
          FirstOpenedAt(replies, i);
          return Recovered(i + 1);
        }
        i := i + 1;
      }
      return RecoveryFatal;
    }

    /**
     * Get(ctx, handler): fetches at most one message. A failed fetch is returned as it is;
     * otherwise the handler is installed, runs only if a message came, and its error is the result.
     * `outcome` is what the handler returns.
     */
    method Get(h: Handler, reply: GetReply, outcome: Option<Error>) returns (err: Option<Error>, invoked: bool)
      modifies this`handler, rmq.broker
      ensures rmq.broker.log == old(rmq.broker.log) + [BasicGet(channel, session.queue.name, Options().autoAck)]
      ensures rmq.broker.closed == old(rmq.broker.closed)
      ensures invoked <==> reply.GetMessage?
      ensures reply.GetFailed? ==> err == Some(reply.error) && handler == old(handler)
      ensures !reply.GetFailed? ==> handler == Some(h)
      ensures reply.GetMessage? ==> err == outcome
      ensures reply.GetEmpty? ==> err.None?
    {
      rmq.broker.Record(BasicGet(channel, session.queue.name, Options().autoAck));
      if reply.GetFailed? {
        return Some(reply.error), false;
      }
      handler := Some(h);
      if reply.GetMessage? {
        return outcome, true;
      }
      return None, false;
    }

    /**
     * Shutdown: shutdownChannel with the consumer tag, whose error is returned. Otherwise, when
     * Consume never started a delivery stream, done is closed so the wait ends at once; the
     * result is nil either way.
     */
    method Shutdown(replies: ChannelShutdownReplies) returns (err: Option<Error>)
      requires !doneClosed
      modifies this`doneClosed, rmq.broker
      ensures rmq.broker.log == old(rmq.broker.log) + ShutdownChannelCalls(channel, Options().tag, replies)
      ensures rmq.broker.closed == if Tolerated(replies.cancel) then old(rmq.broker.closed) + {channel} else old(rmq.broker.closed)
      ensures err == ShutdownChannelVerdict(replies)
      ensures doneClosed <==> err.None? && !consuming
    {
      err := ShutdownChannel(rmq.broker, channel, Options().tag, replies);
      if err.Some? {
        return;
      }
      if !consuming {
        doneClosed := true;
      }
      return None;
    }
  }

  /** What NewConsumer gets from the outside: the channel, the UUID, and the broker's answers to the declarations. */
  datatype ConsumerSetup = ConsumerSetup(channel: Result<ChannelId, Error>, uuid: string, declare: DeclareReplies)

  /**
   * NewConsumer(instance, e, q, bo, co): needs a connection; opens a channel, then Register
   * declares the topology. Any failure yields no consumer and the error.
   */
  method NewConsumer(r: RabbitMQ, e: Exchange, q: Queue, bo: BindingOptions, co: ConsumerOptions, setup: ConsumerSetup)
    returns (c: Consumer?, err: Option<Error>)
    modifies r.broker
    ensures c == null <==> err.Some?
    ensures !r.connected ==> err == Some(Failure(ConnectionNilMsg)) && r.broker.log == old(r.broker.log)
    ensures r.connected && setup.channel.Err? ==>
      err == Some(Wrapped(GetChannelMsg, setup.channel.error)) && r.broker.log == old(r.broker.log) + [ChannelOpen]
    ensures r.connected && setup.channel.Ok? ==>
      r.broker.log == old(r.broker.log) + [ChannelOpen] + DeclareCalls(setup.channel.value, e, q, bo, setup.declare) &&
      err == DeclareVerdict(setup.declare)
    ensures c != null ==> fresh(c) && c.uuid == setup.uuid && c.rmq == r && c.channel == setup.channel.value &&
                          c.session == Session(e, q, bo, Some(co), None) &&
                          !c.consuming && c.handler.None? && !c.doneClosed
    ensures r.broker.closed == old(r.broker.closed)
  {
    if !r.connected {
      return null, Some(Failure(ConnectionNilMsg));
    }
    r.broker.Record(ChannelOpen);
    if setup.channel.Err? {
      return null, Some(Wrapped(GetChannelMsg, setup.channel.error));
    }
    var consumer := new Consumer(setup.uuid, r, setup.channel.value, Session(e, q, bo, Some(co), None));
    err := consumer.Register(setup.declare);
    if err.Some? {
      return null, err;
    }
    return consumer, None;
  }
}

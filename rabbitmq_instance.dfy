/**
 * The instance (rabbitmq/exports.go): one connection, its consumer and producer lists, the
 * consumer configurations to subscribe, and the graceful shutdown with its close handler.
 */
module RabbitInstance {
  import opened Wrappers
  import opened Errors
  import opened RabbitTypes
  import opened Broker
  import opened RabbitCore
  import opened RabbitProducer
  import opened RabbitConsumer
  import opened RabbitRegistry

  const DialErrorMsg: string := "[RabbitMQ] Dial error"
  const ConsumersShutdownMsg: string := "consumers shutdown error"
  const ProducersShutdownMsg: string := "producers shutdown error"
  const RabbitShutdownMsg: string := "rabbitmq shutdown error"
  const SubscribeErrorMsg: string := "consumer subscribe error"
  const ConsumerTagMsg: string := "consumer Tag: "

  /** What RegisterConsumer returns: NewConsumer's error first, then Consume's. */
  function RegisterError(connected: bool, setup: ConsumerSetup, consumeReply: Option<Error>): (err: Option<Error>)
    ensures err.None? <==> connected && setup.channel.Ok? && DeclareVerdict(setup.declare).None? && consumeReply.None?
  {
    if !connected then Some(Failure(ConnectionNilMsg))
    else if setup.channel.Err? then Some(Wrapped(GetChannelMsg, setup.channel.error))
    else if DeclareVerdict(setup.declare).Some? then DeclareVerdict(setup.declare)
    else consumeReply
  }

  /** The calls RegisterConsumer makes: open a channel, declare the topology, then start consuming. */
  function RegisterCalls(connected: bool, o: ConsumerRegisterOptions, setup: ConsumerSetup): (calls: seq<Call>)
    ensures !connected <==> calls == []
    ensures connected ==> calls[0] == ChannelOpen
  {
    if !connected then []
    else if setup.channel.Err? then [ChannelOpen]
    else
      var ch := setup.channel.value;
      [ChannelOpen] + DeclareCalls(ch, o.exchange, o.queue, o.bindingOptions, setup.declare) +
      if DeclareVerdict(setup.declare).Some? then []
      else [BasicConsume(ch, o.queue.name, o.consumerOptions.tag, o.consumerOptions.autoAck,
                         o.consumerOptions.exclusive, o.consumerOptions.noLocal, o.consumerOptions.noWait)]
  }

  /** The calls of registering the first n configurations, one after the other. */
  function SubscribeCalls(connected: bool, opts: seq<ConsumerRegisterOptions>, setups: seq<ConsumerSetup>, n: nat): seq<Call>
    requires n <= |opts| == |setups|
  {
    if n == 0 then [] else SubscribeCalls(connected, opts, setups, n - 1) + RegisterCalls(connected, opts[n - 1], setups[n - 1])
  }

  /** Proof helper: concatenation regroups; stated once so that loops over logs need not rediscover it. */
  lemma Regroup<T>(a: seq<T>, b: seq<T>, c: seq<T>)
    ensures (a + b) + c == a + (b + c)
  {
  }

  /** The UUIDs of the consumers the first n registrations add, in order. */
  function SubscribedUuids(connected: bool, setups: seq<ConsumerSetup>, replies: seq<Option<Error>>, n: nat): seq<string>
    requires n <= |setups| == |replies|
  {
    if n == 0 then []
    else SubscribedUuids(connected, setups, replies, n - 1) +
         if RegisterError(connected, setups[n - 1], replies[n - 1]).None? then [setups[n - 1].uuid] else []
  }

  /** Every one of the first n registrations succeeds. */
  predicate AllRegistered(connected: bool, setups: seq<ConsumerSetup>, replies: seq<Option<Error>>, n: nat)
    requires n <= |setups| == |replies|
  {
    forall j :: 0 <= j < n ==> RegisterError(connected, setups[j], replies[j]).None?
  }

  /** One more registration keeps AllRegistered exactly when it succeeds. */
  lemma AllRegisteredStep(connected: bool, setups: seq<ConsumerSetup>, replies: seq<Option<Error>>, n: nat)
    requires n < |setups| == |replies|
    ensures AllRegistered(connected, setups, replies, n + 1) <==>
            AllRegistered(connected, setups, replies, n) && RegisterError(connected, setups[n], replies[n]).None?
  {
  }

  /** The error ConsumerSubscribe reports for a failed registration: the consumer's tag, then the group's message. */
  function SubscribeError(o: ConsumerRegisterOptions, e: Error): Error
  {
    Wrapped(SubscribeErrorMsg, Wrapped(ConsumerTagMsg + o.consumerOptions.tag, e))
  }

  /** The error the first n registrations report, in the order this model runs them: the first failure's. */
  function SubscribeVerdict(connected: bool, opts: seq<ConsumerRegisterOptions>, setups: seq<ConsumerSetup>,
                            replies: seq<Option<Error>>, n: nat): (r: Option<Error>)
    requires n <= |opts| == |setups| == |replies|
    ensures r.Some? ==> r.value.Wrapped? && r.value.message == SubscribeErrorMsg
  {
    if n == 0 then None
    else
      var prev := SubscribeVerdict(connected, opts, setups, replies, n - 1);
      var err := RegisterError(connected, setups[n - 1], replies[n - 1]);
      if prev.Some? || err.None? then prev else Some(SubscribeError(opts[n - 1], err.value))
  }

  /** The verdict is nil exactly when every registration succeeded, and otherwise names a failed one. */
  lemma {:induction false} SubscribeVerdictMeaning(connected: bool, opts: seq<ConsumerRegisterOptions>, setups: seq<ConsumerSetup>,
                                                   replies: seq<Option<Error>>, n: nat)
    requires n <= |opts| == |setups| == |replies|
    ensures SubscribeVerdict(connected, opts, setups, replies, n).None? <==> AllRegistered(connected, setups, replies, n)
    ensures SubscribeVerdict(connected, opts, setups, replies, n).Some? ==>
              exists j :: 0 <= j < n && RegisterError(connected, setups[j], replies[j]).Some? &&
                          SubscribeVerdict(connected, opts, setups, replies, n) ==
                            Some(SubscribeError(opts[j], RegisterError(connected, setups[j], replies[j]).value))
  {
    if n > 0 {
      SubscribeVerdictMeaning(connected, opts, setups, replies, n - 1);
      AllRegisteredStep(connected, setups, replies, n - 1);
    }
  }

  /** With distinct UUIDs, no configuration from n on is among the UUIDs the first n registrations add. */
  lemma {:induction false} SubscribedUuidsExclude(connected: bool, setups: seq<ConsumerSetup>, replies: seq<Option<Error>>, n: nat, k: nat)
    requires n <= k < |setups| == |replies|
    requires forall a, b :: 0 <= a < b < |setups| ==> setups[a].uuid != setups[b].uuid
    ensures setups[k].uuid !in SubscribedUuids(connected, setups, replies, n)
  {
    if n > 0 {
      SubscribedUuidsExclude(connected, setups, replies, n - 1, k);
      assert setups[n - 1].uuid != setups[k].uuid;
    }
  }

  /**
   * What Instance.Shutdown leaves: the broker state, the error kept in err, the error returned,
   * which lists were emptied, and whether the connection stage panicked on a nil connection.
   */
  datatype ShutdownOutcome = ShutdownOutcome(log: seq<Call>, closed: set<ChannelId>, stageErr: Option<Error>,
                                             returned: Option<Error>, consumersCleared: bool, producersCleared: bool,
                                             panicked: bool)

  /**
   * Instance.Shutdown as a function of the consumers' and producers' targets and the broker's
   * answers: consumers, then producers, then the connection, stopping at the first stage that fails.
   * The connection stage panics when there is no connection; err then keeps the producers' nil.
   */
  function ShutdownRun(cts: seq<Target>, cr: seq<ChannelShutdownReplies>, pts: seq<Target>, pr: seq<ChannelShutdownReplies>,
                       connected: bool, closeReply: Option<Error>, log: seq<Call>, closed: set<ChannelId>): (o: ShutdownOutcome)
    requires |cts| == |cr| && |pts| == |pr|
    ensures log <= o.log && closed <= o.closed
    ensures o.returned.Some? <==> o.stageErr.Some?
    ensures o.producersCleared ==> o.consumersCleared
    ensures o.panicked <==> !connected && o.producersCleared
    ensures o.consumersCleared <==> StageRun(cts, cr, 0, log, closed).err.None?
    ensures o.producersCleared && !o.panicked ==> |o.log| > 0 && o.log[|o.log| - 1] == ConnectionClose
  {
    var cs := StageRun(cts, cr, 0, log, closed);
    StageRunAppends(cts, cr, 0, log, closed);
    StageRunAppends(pts, pr, 0, cs.log, cs.closed);
    if cs.err.Some? then ShutdownOutcome(cs.log, cs.closed, cs.err, Some(Wrapped(ConsumersShutdownMsg, cs.err.value)), false, false, false)
    else
      var ps := StageRun(pts, pr, 0, cs.log, cs.closed);
      if ps.err.Some? then ShutdownOutcome(ps.log, ps.closed, ps.err, Some(Wrapped(ProducersShutdownMsg, ps.err.value)), true, false, false)
      else if !connected then ShutdownOutcome(ps.log, ps.closed, None, None, true, true, true)
      else
        var v := ConnectionCloseVerdict(closeReply);
        ShutdownOutcome(ps.log + [ConnectionClose], ps.closed, v,
                        if v.Some? then Some(Wrapped(RabbitShutdownMsg, v.value)) else None, true, true, false)
  }

  /**
   * Shutdown's three stages, on the connection and the two lists; the stage error comes back
   * beside the wrapped one, and `panicked` says the connection stage panicked.
   */
  method ShutdownStages(rmq: RabbitMQ, consumers: ConsumerList, producers: ProducerList, ghost cts: seq<Target>,
                        cr: seq<ChannelShutdownReplies>, pr: seq<ChannelShutdownReplies>, closeReply: Option<Error>)
    returns (stageErr: Option<Error>, e: Option<Error>, panicked: bool)
    requires consumers.Valid() && producers.Valid() && cts == ConsumerTargets(consumers.list)
    requires |cr| == |consumers.list| && |pr| == |producers.list|
    requires forall i :: 0 <= i < |consumers.list| ==>
               consumers.list[i].handle.rmq.broker == rmq.broker && !consumers.list[i].handle.doneClosed
    modifies consumers, producers, rmq.broker, Handles(consumers.list)
    ensures var o := ShutdownRun(cts, cr, ProducerTargets(old(producers.list)), pr, rmq.connected, closeReply,
                                 old(rmq.broker.log), old(rmq.broker.closed));
      rmq.broker.log == o.log && rmq.broker.closed == o.closed && stageErr == o.stageErr && e == o.returned &&
      panicked == o.panicked &&
      consumers.list == (if o.consumersCleared then [] else old(consumers.list)) &&
      producers.list == (if o.producersCleared then [] else old(producers.list))
    ensures consumers.Valid() && producers.Valid()
  {
    var broker := rmq.broker;
    var ce := consumers.Shutdown(broker, cr);
    if ce.Some? {
      return ce, Some(Wrapped(ConsumersShutdownMsg, ce.value)), false;
    }
    var pe := producers.Shutdown(broker, pr);
    if pe.Some? {
      return pe, Some(Wrapped(ProducersShutdownMsg, pe.value)), false;
    }
    var re;
    re, panicked := rmq.Shutdown(closeReply);
    if panicked {
      return pe, None, true;
    }
    if re.Some? {
      return re, Some(Wrapped(RabbitShutdownMsg, re.value)), false;
    }
    return None, None, false;
  }

  /** Instance. */
  class Instance {
    const rabbitMQ: RabbitMQ
    const consumers: ConsumerList
    const producers: ProducerList
    /** consumersOptions: the configurations ConsumerSubscribe registers. */
    var consumersOptions: seq<ConsumerRegisterOptions>
    /** A value waits in the one-slot `closed` channel. */
    var closedPending: bool
    /** The `closed` channel has been closed. */
    var chanClosed: bool
    var isClosed: bool
    /** The last stage error of Shutdown. */
    var err: Option<Error>

    /** Both lists are well formed and every consumer runs on this instance's connection. */
    predicate Valid()
      reads consumers, producers
    {
      consumers.Valid() && producers.Valid() &&
      forall i :: 0 <= i < |consumers.list| ==> consumers.list[i].handle.rmq == rabbitMQ
    }

    /** New(config, logger): a wrapper that is not connected yet, empty lists, nothing closed. */
    constructor New(config: Option<Config>, broker: Broker)
      ensures rabbitMQ.config == config && rabbitMQ.broker == broker && !rabbitMQ.connected
      ensures consumers.list == [] && producers.list == [] && consumersOptions == []
      ensures !closedPending && !chanClosed && !isClosed && err.None?
      ensures fresh(rabbitMQ) && fresh(consumers) && fresh(producers) && Valid()
    {
      rabbitMQ := new RabbitMQ.NewWrapper(config, broker);
      consumers := new ConsumerList();
      producers := new ProducerList();
      consumersOptions := [];
      closedPending := false;
      chanClosed := false;
      isClosed := false;
      err := None;
    }

    /** Init: dials; a dial error comes back wrapped. */
    method Init(reply: Option<Error>) returns (e: Option<Error>)
      modifies rabbitMQ, rabbitMQ.broker
      ensures rabbitMQ.config.None? ==> e == Some(Wrapped(DialErrorMsg, Failure(ConfigMissingMsg)))
      ensures rabbitMQ.config.Some? ==>
        rabbitMQ.broker.log == old(rabbitMQ.broker.log) + [ConnectionOpen(rabbitMQ.config.value)] &&
        rabbitMQ.connected == reply.None? &&
        e == if reply.Some? then Some(Wrapped(DialErrorMsg, reply.value)) else None
      ensures rabbitMQ.broker.closed == old(rabbitMQ.broker.closed)
    {
      var d := rabbitMQ.Dial(reply);
      if d.Some? {
        return Some(Wrapped(DialErrorMsg, d.value));
      }
      return None;
    }

    /**
     * Shutdown: the consumers, then the producers, then the connection; the first stage that
     * fails ends it, its error is kept in err and returned wrapped with the stage's name. Either
     * way a value is put into `closed` for the close handler, by a deferred send that also runs
     * when the connection stage panics on a nil connection.
     */
    method Shutdown(consumerReplies: seq<ChannelShutdownReplies>, producerReplies: seq<ChannelShutdownReplies>,
                    closeReply: Option<Error>) returns (e: Option<Error>, panicked: bool)
      requires Valid() && !closedPending && !chanClosed
      requires |consumerReplies| == |consumers.list| && |producerReplies| == |producers.list|
      requires forall i :: 0 <= i < |consumers.list| ==> !consumers.list[i].handle.doneClosed
      modifies this, consumers, producers, rabbitMQ.broker, Handles(consumers.list)
      ensures closedPending && !chanClosed && isClosed == old(isClosed) && Valid()
      ensures var o := ShutdownRun(old(ConsumerTargets(consumers.list)), consumerReplies, ProducerTargets(old(producers.list)),
                                   producerReplies, rabbitMQ.connected, closeReply, old(rabbitMQ.broker.log), old(rabbitMQ.broker.closed));
        rabbitMQ.broker.log == o.log && rabbitMQ.broker.closed == o.closed && err == o.stageErr && e == o.returned &&
        panicked == o.panicked &&
        consumers.list == (if o.consumersCleared then [] else old(consumers.list)) &&
        producers.list == (if o.producersCleared then [] else old(producers.list))
    {
      ghost var list0 := consumers.list;
      var stageErr;
      stageErr, e, panicked := ShutdownStages(rabbitMQ, consumers, producers, ConsumerTargets(consumers.list),
                                    consumerReplies, producerReplies, closeReply);
      assert consumers.list == [] || consumers.list == list0;
      err, closedPending := stageErr, true;
    }

    /**
     * RegisterCloseHandler(fn): waits for Shutdown's value, hands err to fn, closes the channel
     * and marks the instance closed. Before Shutdown it would wait forever; a second call would
     * close a closed channel.
     */
    method RegisterCloseHandler() returns (handed: Option<Error>)
      requires closedPending && !chanClosed
      modifies this`closedPending, this`chanClosed, this`isClosed
      ensures handed == err && isClosed && chanClosed && !closedPending
    {
      closedPending := false;
      handed := err;
      chanClosed := true;
      isClosed := true;
    }

    /** IsClosed. */
    function IsClosed(): bool
      reads this
    {
      isClosed
    }

    /** RegisterConsumerConfig: appends one configuration for ConsumerSubscribe. */
    method RegisterConsumerConfig(options: ConsumerRegisterOptions)
      modifies this`consumersOptions
      ensures consumersOptions == old(consumersOptions) + [options]
    {
      consumersOptions := consumersOptions + [options];
    }

    /**
     * ConsumerSubscribe: registers every configuration. The registrations do not depend on one
     * another, so all of them are made; the result is nil when all succeed, and otherwise one
     * failed registration's error, under its consumer tag.
     */
    method ConsumerSubscribe(setups: seq<ConsumerSetup>, consumeReplies: seq<Option<Error>>) returns (e: Option<Error>)
      requires Valid() && |setups| == |consumeReplies| == |consumersOptions|
      requires forall j, k :: 0 <= j < k < |setups| ==> setups[j].uuid != setups[k].uuid
      requires forall j :: 0 <= j < |setups| ==> setups[j].uuid !in Uuids(consumers.list)
      modifies consumers, rabbitMQ.broker
      ensures e == SubscribeVerdict(rabbitMQ.connected, consumersOptions, setups, consumeReplies, |setups|)
      ensures e.None? <==> AllRegistered(rabbitMQ.connected, setups, consumeReplies, |setups|)
      ensures e.Some? ==> exists j :: 0 <= j < |setups| && RegisterError(rabbitMQ.connected, setups[j], consumeReplies[j]).Some? &&
                                      e == Some(SubscribeError(consumersOptions[j], RegisterError(rabbitMQ.connected, setups[j], consumeReplies[j]).value))
      ensures rabbitMQ.broker.log == old(rabbitMQ.broker.log) + SubscribeCalls(rabbitMQ.connected, consumersOptions, setups, |setups|)
      ensures rabbitMQ.broker.closed == old(rabbitMQ.broker.closed)
      ensures Uuids(consumers.list) == old(Uuids(consumers.list)) + SubscribedUuids(rabbitMQ.connected, setups, consumeReplies, |setups|)
      ensures Valid()
    {
      var opts, connected := consumersOptions, rabbitMQ.connected;
      e := None;
      for i := 0 to |opts|
        invariant Valid() && rabbitMQ.connected == connected
        invariant e == SubscribeVerdict(connected, opts, setups, consumeReplies, i)
        invariant rabbitMQ.broker.log == old(rabbitMQ.broker.log) + SubscribeCalls(connected, opts, setups, i)
        invariant rabbitMQ.broker.closed == old(rabbitMQ.broker.closed)
        invariant Uuids(consumers.list) == old(Uuids(consumers.list)) + SubscribedUuids(connected, setups, consumeReplies, i)
      {
        assert SubscribeCalls(connected, opts, setups, i + 1) ==
               SubscribeCalls(connected, opts, setups, i) + RegisterCalls(connected, opts[i], setups[i]);
        SubscribedUuidsExclude(connected, setups, consumeReplies, i, i);
        ghost var uuids0 := SubscribedUuids(connected, setups, consumeReplies, i);
        e := SubscribeOne(opts[i], setups[i], consumeReplies[i], e);
        Regroup(old(rabbitMQ.broker.log), SubscribeCalls(connected, opts, setups, i), RegisterCalls(connected, opts[i], setups[i]));
        Regroup(old(Uuids(consumers.list)), uuids0, SubscribedUuids(connected, setups, consumeReplies, i + 1)[|uuids0|..]);
      }
      SubscribeVerdictMeaning(connected, opts, setups, consumeReplies, |opts|);
    }

    /** One round of ConsumerSubscribe: register a configuration and keep the first error. */
    method SubscribeOne(options: ConsumerRegisterOptions, setup: ConsumerSetup, consumeReply: Option<Error>, e: Option<Error>)
      returns (e': Option<Error>)
      requires Valid() && setup.uuid !in Uuids(consumers.list)
      modifies consumers, rabbitMQ.broker
      ensures var err := RegisterError(rabbitMQ.connected, setup, consumeReply);
              e' == if e.Some? || err.None? then e else Some(SubscribeError(options, err.value))
      ensures rabbitMQ.broker.log == old(rabbitMQ.broker.log) + RegisterCalls(rabbitMQ.connected, options, setup)
      ensures rabbitMQ.broker.closed == old(rabbitMQ.broker.closed)
      ensures Uuids(consumers.list) == old(Uuids(consumers.list)) +
                if RegisterError(rabbitMQ.connected, setup, consumeReply).None? then [setup.uuid] else []
      ensures Valid()
    {
      ghost var before := consumers.list;
      var r := RegisterConsumer(options, setup, consumeReply);
      if r.None? {
        UuidsAppend(before, consumers.list[|consumers.list| - 1]);
      }
      e' := e;
      if r.Some? && e.None? {
        e' := Some(SubscribeError(options, r.value));
      }
    }

    /**
     * RegisterConsumer: a consumer on a new channel with the topology declared, started with
     * the options' handler and added to the list; any error is returned and nothing is added.
     */
    method RegisterConsumer(options: ConsumerRegisterOptions, setup: ConsumerSetup, consumeReply: Option<Error>)
      returns (e: Option<Error>)
      requires Valid() && setup.uuid !in Uuids(consumers.list)
      modifies consumers, rabbitMQ.broker
      ensures e == RegisterError(rabbitMQ.connected, setup, consumeReply)
      ensures rabbitMQ.broker.log == old(rabbitMQ.broker.log) + RegisterCalls(rabbitMQ.connected, options, setup)
      ensures rabbitMQ.broker.closed == old(rabbitMQ.broker.closed)
      ensures e.Some? ==> consumers.list == old(consumers.list)
      ensures e.None? ==> |consumers.list| > 0 &&
                          var c := consumers.list[|consumers.list| - 1].handle;
                          consumers.list == old(consumers.list) + [Unit(setup.uuid, c)] &&
                          fresh(c) && c.uuid == setup.uuid && c.consuming && c.handler == Some(options.callFunc) &&
                          c.session == Session(options.exchange, options.queue, options.bindingOptions, Some(options.consumerOptions), None)
      ensures Valid()
    {
      var c, ne := NewConsumer(rabbitMQ, options.exchange, options.queue, options.bindingOptions, options.consumerOptions, setup);
      if ne.Some? {
        return ne;
      }
      var ce := c.Consume(options.callFunc, consumeReply);
      if ce.Some? {
        return ce;
      }
      consumers.Add(Unit(c.uuid, c));
      return None;
    }

    /** RegisterProducer: a producer on a new channel, added to the list; any error is returned and nothing is added. */
    method RegisterProducer(options: ProducerRegisterOptions, setup: ProducerSetup) returns (p: Result<Producer, Error>)
      requires Valid() && (setup.uuid.Ok? ==> setup.uuid.value !in Uuids(producers.list))
      modifies producers, rabbitMQ.broker
      ensures p == NewProducerResult(rabbitMQ.connected, options.exchange, options.queue, options.publishingOptions, setup)
      ensures p.Ok? ==> producers.list == old(producers.list) + [Unit(p.value.uuid, p.value)]
      ensures p.Err? ==> producers.list == old(producers.list)
      ensures rabbitMQ.broker.log == old(rabbitMQ.broker.log) + if rabbitMQ.connected then [ChannelOpen] else []
      ensures rabbitMQ.broker.closed == old(rabbitMQ.broker.closed)
      ensures Valid()
    {
      p := NewProducer(rabbitMQ, options.exchange, options.queue, options.publishingOptions, setup);
      if p.Err? {
        return p;
      }
      producers.Add(Unit(p.value.uuid, p.value));
    }

    /** GetConsumer: the consumer list's lookup. */
    method GetConsumer(uuid: string) returns (c: Consumer?, ok: bool)
      ensures ok <==> uuid in Uuids(consumers.list)
      ensures ok ==> c == consumers.list[Find(consumers.list, uuid).value].handle
      ensures !ok ==> c == null
    {
      c, ok := consumers.Get(uuid);
    }

    /** GetProducer: the producer list's lookup, which drops a producer whose channel is closed. */
    method GetProducer(uuid: string) returns (p: Option<Producer>)
      requires Valid()
      modifies producers
      ensures p == LiveProducer(old(producers.list), rabbitMQ.broker.closed, uuid)
      ensures Find(old(producers.list), uuid).Some? && p.None? ==> producers.list == Without(old(producers.list), uuid)
      ensures !(Find(old(producers.list), uuid).Some? && p.None?) ==> producers.list == old(producers.list)
      ensures Valid()
    {
      p := producers.Get(uuid, rabbitMQ.broker);
    }
  }
}

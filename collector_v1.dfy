/**
 * The failed-message collector of the consumers tree (consumers/notification/v1): its
 * producers come from the handler context's cache (Ctx.GetProducer).
 */
module CollectorV1 {
  import opened Wrappers
  import opened Errors
  import opened RabbitTypes
  import opened Broker
  import opened RabbitProducer
  import opened RabbitRegistry
  import opened RabbitInstance
  import opened RabbitCtx
  import opened DeadLetter

  /** Ctx.GetProducer as a lookup over a store, with the closed channels and the connection state fixed. */
  function CtxLookup(closed: set<ChannelId>, connected: bool): LookupFn
  {
    (s: Store, ex: string, q: string, rk: string, setup: ProducerSetup) =>
      var out := GetProducerRun(s.entries, s.list, closed, connected, DefaultOptions(ex, q, rk), setup, s.log);
      (out.result, Store(out.entries, out.list, out.log))
  }

  /**
   * The collector's CallFunc. `original` and `can` are what the two possible registrations
   * would draw, `encode` is wrapperHeader's JSON encoding and `reply` the broker's answer to
   * the one publish; the seconds slept are returned instead of slept.
   */
  method Collect<V>(ctx: Ctx<V>, d: Delivery, original: ProducerSetup, can: ProducerSetup,
                    encode: (Table, seq<bv8>) -> Result<seq<bv8>, Error>, reply: Option<Error>)
    returns (outcome: Outcome, slept: Option<nat>)
    requires ctx.instance.Valid()
    requires original.uuid.Ok? ==> original.uuid.value !in Uuids(ctx.instance.producers.list)
    requires can.uuid.Ok? ==> can.uuid.value !in Uuids(ctx.instance.producers.list)
    requires original.uuid.Ok? && can.uuid.Ok? ==> original.uuid.value != can.uuid.value
    modifies ctx.cache, ctx.instance.producers, ctx.instance.rabbitMQ.broker
    ensures Handled(outcome, slept, Store(ctx.cache.entries, ctx.instance.producers.list, ctx.instance.rabbitMQ.broker.log)) ==
            HandleRun(CtxLookup(old(ctx.instance.rabbitMQ.broker.closed), ctx.instance.rabbitMQ.connected), d,
                      Store(old(ctx.cache.entries), old(ctx.instance.producers.list), old(ctx.instance.rabbitMQ.broker.log)),
                      original, can, encode, reply)
    ensures ctx.instance.rabbitMQ.broker.closed == old(ctx.instance.rabbitMQ.broker.closed)
    ensures ctx.instance.Valid()
  {
    var h := d.headers;
    if XDeathHeader !in h {
      return Returned(Some(Failure(XDeathMissingMsg))), None;
    }
    if FirstDeathExchangeHeader !in h {
      return Returned(Some(Failure(ExchangeMissingMsg))), None;
    }
    if FirstDeathQueueHeader !in h {
      return Returned(Some(Failure(QueueMissingMsg))), None;
    }
    var xDeath, exName, qName := h[XDeathHeader], h[FirstDeathExchangeHeader], h[FirstDeathQueueHeader];
    if !exName.FString? || !qName.FString? {
      return Panicked, None;
    }
    ghost var closed, connected := ctx.instance.rabbitMQ.broker.closed, ctx.instance.rabbitMQ.connected;
    ghost var s := Store(ctx.cache.entries, ctx.instance.producers.list, ctx.instance.rabbitMQ.broker.log);
    var p := ctx.GetProducer(exName.s, qName.s, "", original);
    assert CtxLookup(closed, connected)(s, exName.s, qName.s, "", original) ==
           (p, Store(ctx.cache.entries, ctx.instance.producers.list, ctx.instance.rabbitMQ.broker.log));
    if p.Err? {
      return Returned(Some(p.error)), None;
    }
    if can.uuid.Ok? {
      LookupKeepsAbsent(s.entries, s.list, closed, connected, DefaultOptions(exName.s, qName.s, ""), original, s.log, can.uuid.value);
    }
    outcome, slept := Forward(ctx, d, xDeath, exName.s, qName.s, p.value, can, encode, reply);
  }

  /** The handler once the original destination's producer p is resolved. */
  method Forward<V>(ctx: Ctx<V>, d: Delivery, xDeath: FieldValue, ex: string, q: string, p: Producer, can: ProducerSetup,
                    encode: (Table, seq<bv8>) -> Result<seq<bv8>, Error>, reply: Option<Error>)
    returns (outcome: Outcome, slept: Option<nat>)
    requires ctx.instance.Valid() && p.session.publishingOptions.Some?
    requires can.uuid.Ok? ==> can.uuid.value !in Uuids(ctx.instance.producers.list)
    modifies ctx.cache, ctx.instance.producers, ctx.instance.rabbitMQ.broker
    ensures Handled(outcome, slept, Store(ctx.cache.entries, ctx.instance.producers.list, ctx.instance.rabbitMQ.broker.log)) ==
            Dispatch(CtxLookup(old(ctx.instance.rabbitMQ.broker.closed), ctx.instance.rabbitMQ.connected), d, xDeath, ex, q, p,
                     Store(old(ctx.cache.entries), old(ctx.instance.producers.list), old(ctx.instance.rabbitMQ.broker.log)),
                     can, encode, reply)
    ensures ctx.instance.rabbitMQ.broker.closed == old(ctx.instance.rabbitMQ.broker.closed)
    ensures ctx.instance.Valid()
  {
    if !xDeath.FArray? {
      return Panicked, None;
    }
    var count := CheckXDeathCount(xDeath.items);
    if count.None? {
      return Panicked, None;
    }
    if count.value <= MaxRetries {
      slept := Some(BackoffSeconds(count.value));
      var err := Publish(ctx.instance.rabbitMQ.broker, p, Publishing(d.headers, Persistent, d.body), reply);
      outcome := PublishVerdict(RetryFailedMsg(ex, q), err);
      return;
    }
    outcome := Quarantine(ctx, d, can, encode, reply);
    slept := None;
  }

  /** The can path: the can queue's producer, the encoded delivery, one publish. */
  method Quarantine<V>(ctx: Ctx<V>, d: Delivery, can: ProducerSetup,
                       encode: (Table, seq<bv8>) -> Result<seq<bv8>, Error>, reply: Option<Error>)
    returns (outcome: Outcome)
    requires ctx.instance.Valid()
    requires can.uuid.Ok? ==> can.uuid.value !in Uuids(ctx.instance.producers.list)
    modifies ctx.cache, ctx.instance.producers, ctx.instance.rabbitMQ.broker
    ensures Handled(outcome, None, Store(ctx.cache.entries, ctx.instance.producers.list, ctx.instance.rabbitMQ.broker.log)) ==
            Park(CtxLookup(old(ctx.instance.rabbitMQ.broker.closed), ctx.instance.rabbitMQ.connected), d,
                 Store(old(ctx.cache.entries), old(ctx.instance.producers.list), old(ctx.instance.rabbitMQ.broker.log)),
                 can, encode, reply)
    ensures ctx.instance.rabbitMQ.broker.closed == old(ctx.instance.rabbitMQ.broker.closed)
    ensures ctx.instance.Valid()
  {
    ghost var closed, connected := ctx.instance.rabbitMQ.broker.closed, ctx.instance.rabbitMQ.connected;
    ghost var s1 := Store(ctx.cache.entries, ctx.instance.producers.list, ctx.instance.rabbitMQ.broker.log);
    var p := ctx.GetProducer(FailedExchange, CanQueue, CanRoutingKey, can);
    assert CtxLookup(closed, connected)(s1, FailedExchange, CanQueue, CanRoutingKey, can) ==
           (p, Store(ctx.cache.entries, ctx.instance.producers.list, ctx.instance.rabbitMQ.broker.log));
    if p.Err? {
      return Returned(Some(p.error));
    }
    var body := encode(d.headers, d.body);
    if body.Err? {
      return Returned(Some(body.error));
    }
    var err := Publish(ctx.instance.rabbitMQ.broker, p.value, Publishing(d.headers, Persistent, body.value), reply);
    return PublishVerdict(CanPublishFailedMsg, err);
  }

  /**
   * Parking a delivery when the can producer is not cached yet: a channel is opened, the
   * producer is cached under the can routing key, and the encoded delivery is published,
   * persistent and with the original headers, to the failure exchange under that key.
   */
  lemma ParkedInCan(closed: set<ChannelId>, d: Delivery, s1: Store, can: ProducerSetup,
                    encode: (Table, seq<bv8>) -> Result<seq<bv8>, Error>, reply: Option<Error>)
    requires !(CanRoutingKey in s1.entries && LiveProducer(s1.list, closed, s1.entries[CanRoutingKey]).Some?)
    requires can.channel.Ok? && can.uuid.Ok? && encode(d.headers, d.body).Ok?
    ensures var h := Park(CtxLookup(closed, true), d, s1, can, encode, reply);
            h.store.log == s1.log + [ChannelOpen, BasicPublish(can.channel.value, FailedExchange, CanRoutingKey, false, false,
                                                               Publishing(d.headers, Persistent, encode(d.headers, d.body).value))] &&
            h.store.entries == s1.entries[CanRoutingKey := can.uuid.value] &&
            h.outcome == PublishVerdict(CanPublishFailedMsg, reply) && h.slept == None
  {
  }
}

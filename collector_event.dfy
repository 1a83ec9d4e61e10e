/**
 * The failed-message collector of the event tree (event/notification): its producers come
 * from getProducer, which keeps its own process-wide ProducerMapping from routing key to
 * producer UUID in front of the instance's producer list.
 */
module CollectorEvent {
  import opened Wrappers
  import opened Errors
  import opened RabbitTypes
  import opened Broker
  import opened RabbitProducer
  import opened RabbitRegistry
  import opened RabbitInstance
  import opened RabbitCtx
  import opened DeadLetter

  /** The global ProducerMapping. */
  class ProducerMapping {
    var m: map<string, string>

    constructor ()
      ensures m == map[]
    {
      m := map[];
    }
  }

  /**
   * getProducer as a function of the mapping, the producer list, the closed channels, the
   * connection state and what a registration would draw: the routing key defaults to
   * "exchange.queue"; a mapped UUID whose producer is live is the answer; otherwise a durable
   * direct producer is registered under that key and, only when that succeeds, mapped under
   * its own routing key. A stale mapping is never deleted.
   */
  function MappedLookupRun(m: map<string, string>, list: seq<Unit<Producer>>, closed: set<ChannelId>, connected: bool,
                           ex: string, q: string, rk: string, setup: ProducerSetup, log: seq<Call>): (r: Lookup)
    ensures r.log == log || (connected && r.log == log + [ChannelOpen])
    ensures |r.list| <= |list| + 1
    ensures m.Keys <= r.entries.Keys
  {
    var o := Resolved(DefaultOptions(ex, q, rk));
    var key := o.publishingOptions.routingKey;
    if key in m && LiveProducer(list, closed, m[key]).Some? then
      Lookup(Ok(LiveProducer(list, closed, m[key]).value), m, list, log)
    else
      var pruned := if key in m then AfterGet(list, closed, m[key]) else list;
      var p := NewProducerResult(connected, o.exchange, o.queue, o.publishingOptions, setup);
      var log' := log + if connected then [ChannelOpen] else [];
      if p.Err? then Lookup(p, m, pruned, log')
      else Lookup(p, m[GetRoutingKey(p.value) := p.value.uuid], pruned + [Unit(p.value.uuid, p.value)], log')
  }

  /**
   * getProducer and Ctx.GetProducer agree on the producer, the producer list and the broker
   * log; their maps differ only at the lookup key, which the context's cache deletes when its
   * producer is stale or missing and the mapping keeps until a registration overwrites it.
   */
  lemma MappedAgreesWithCtx(m: map<string, string>, list: seq<Unit<Producer>>, closed: set<ChannelId>, connected: bool,
                            ex: string, q: string, rk: string, setup: ProducerSetup, log: seq<Call>)
    ensures var mapped := MappedLookupRun(m, list, closed, connected, ex, q, rk, setup, log);
            var cached := GetProducerRun(m, list, closed, connected, DefaultOptions(ex, q, rk), setup, log);
            var key := LookupKey(DefaultOptions(ex, q, rk));
            mapped.result == cached.result && mapped.list == cached.list && mapped.log == cached.log &&
            mapped.entries - {key} == cached.entries - {key} &&
            (key in m && LiveProducer(list, closed, m[key]).None? && mapped.result.Err? ==>
               key in mapped.entries && mapped.entries[key] == m[key] && key !in cached.entries)
  {
    var o := DefaultOptions(ex, q, rk);
    var key := LookupKey(o);
    var mapped := MappedLookupRun(m, list, closed, connected, ex, q, rk, setup, log);
    var cached := GetProducerRun(m, list, closed, connected, o, setup, log);
    if !(key in m && LiveProducer(list, closed, m[key]).Some?) && mapped.result.Ok? {
      var k := GetRoutingKey(mapped.result.value);
      assert mapped.entries - {key} == (m - {key})[k := mapped.result.value.uuid] - {key};
    }
  }

  /**
   * The mapping loses no key; a failed registration leaves it as it was, and an entry changes
   * only to the UUID of a producer registered because the lookup key had no live producer.
   */
  lemma MappingOnlyGrows(m: map<string, string>, list: seq<Unit<Producer>>, closed: set<ChannelId>, connected: bool,
                         ex: string, q: string, rk: string, setup: ProducerSetup, log: seq<Call>)
    ensures var out := MappedLookupRun(m, list, closed, connected, ex, q, rk, setup, log);
            m.Keys <= out.entries.Keys &&
            (out.result.Err? ==> out.entries == m) &&
            (forall k :: k in m && out.entries[k] != m[k] ==>
               out.result.Ok? && out.entries[k] == out.result.value.uuid &&
               !(LookupKey(DefaultOptions(ex, q, rk)) in m && LiveProducer(list, closed, m[LookupKey(DefaultOptions(ex, q, rk))]).Some?))
  {
  }

  /** A registered producer is mapped under its routing key, which is the lookup key whenever the exchange is named. */
  lemma MappedUnderRoutingKey(m: map<string, string>, list: seq<Unit<Producer>>, closed: set<ChannelId>, connected: bool,
                              ex: string, q: string, rk: string, setup: ProducerSetup, log: seq<Call>)
    requires !(LookupKey(DefaultOptions(ex, q, rk)) in m &&
               LiveProducer(list, closed, m[LookupKey(DefaultOptions(ex, q, rk))]).Some?)
    requires connected && setup.channel.Ok? && setup.uuid.Ok?
    ensures var out := MappedLookupRun(m, list, closed, connected, ex, q, rk, setup, log);
            out.result.Ok? && out.result.value.uuid == setup.uuid.value &&
            out.entries == m[GetRoutingKey(out.result.value) := setup.uuid.value] &&
            (ex != "" ==> GetRoutingKey(out.result.value) == LookupKey(DefaultOptions(ex, q, rk))) &&
            (ex == "" ==> GetRoutingKey(out.result.value) == q)
  {
  }

  /** A lookup adds no UUID to the producer list but the one its registration draws. */
  lemma MappedKeepsAbsent(m: map<string, string>, list: seq<Unit<Producer>>, closed: set<ChannelId>, connected: bool,
                          ex: string, q: string, rk: string, setup: ProducerSetup, log: seq<Call>, other: string)
    requires other !in Uuids(list)
    requires setup.uuid.Ok? ==> other != setup.uuid.value
    ensures other !in Uuids(MappedLookupRun(m, list, closed, connected, ex, q, rk, setup, log).list)
  {
    MappedAgreesWithCtx(m, list, closed, connected, ex, q, rk, setup, log);
    LookupKeepsAbsent(m, list, closed, connected, DefaultOptions(ex, q, rk), setup, log, other);
  }

  /** getProducer(ctx, instance, exchangeName, queueName, routingKey). */
  method GetMappedProducer(mapping: ProducerMapping, instance: Instance, exchangeName: string, queueName: string,
                           routingKey: string, setup: ProducerSetup) returns (p: Result<Producer, Error>)
    requires instance.Valid()
    requires setup.uuid.Ok? ==> setup.uuid.value !in Uuids(instance.producers.list)
    modifies mapping, instance.producers, instance.rabbitMQ.broker
    ensures Lookup(p, mapping.m, instance.producers.list, instance.rabbitMQ.broker.log) ==
            MappedLookupRun(old(mapping.m), old(instance.producers.list), old(instance.rabbitMQ.broker.closed),
                            instance.rabbitMQ.connected, exchangeName, queueName, routingKey, setup,
                            old(instance.rabbitMQ.broker.log))
    ensures instance.rabbitMQ.broker.closed == old(instance.rabbitMQ.broker.closed)
    ensures p.Ok? ==> p.value.session.publishingOptions.Some?
    ensures instance.Valid()
  {
    var key := routingKey;
    if key == "" {
      key := exchangeName + "." + queueName;
    }
    var found := MappedLive(mapping, instance, key, if setup.uuid.Ok? then Some(setup.uuid.value) else None);
    if found.Some? {
      return Ok(found.value);
    }
    p := instance.RegisterProducer(DefaultOptions(exchangeName, queueName, key), setup);
    if p.Err? {
      return;
    }
    mapping.m := mapping.m[GetRoutingKey(p.value) := p.value.uuid];
  }

  /**
   * The mapping half of getProducer: the live producer mapped under key, if any; asking the
   * instance for a stale one drops it from the list, but the mapping is left alone.
   */
  method MappedLive(mapping: ProducerMapping, instance: Instance, key: string, ghost avoid: Option<string>)
    returns (found: Option<Producer>)
    requires instance.Valid()
    requires avoid.Some? ==> avoid.value !in Uuids(instance.producers.list)
    modifies instance.producers
    ensures found.Some? <==> key in mapping.m && LiveProducer(old(instance.producers.list), instance.rabbitMQ.broker.closed, mapping.m[key]).Some?
    ensures found.Some? ==> found == LiveProducer(old(instance.producers.list), instance.rabbitMQ.broker.closed, mapping.m[key])
    ensures instance.producers.list == if key in mapping.m
                                       then AfterGet(old(instance.producers.list), instance.rabbitMQ.broker.closed, mapping.m[key])
                                       else old(instance.producers.list)
    ensures avoid.Some? ==> avoid.value !in Uuids(instance.producers.list)
    ensures instance.Valid()
  {
    if key !in mapping.m {
      return None;
    }
    var uuid := mapping.m[key];
    ghost var list0 := instance.producers.list;
    found := instance.GetProducer(uuid);
    if found.None? && Find(list0, uuid).Some? && avoid.Some? {
      WithoutKeepsAbsent(list0, uuid, avoid.value);
    }
  }

  /** getProducer as a lookup over a store, with the closed channels and the connection state fixed. */
  function MappedLookup(closed: set<ChannelId>, connected: bool): LookupFn
  {
    (s: Store, ex: string, q: string, rk: string, setup: ProducerSetup) =>
      var out := MappedLookupRun(s.entries, s.list, closed, connected, ex, q, rk, setup, s.log);
      (out.result, Store(out.entries, out.list, out.log))
  }

  /**
   * The collector's CallFunc over the mapping and the instance. `original` and `can` are what
   * the two possible registrations would draw, `encode` is wrapperHeader's JSON encoding and
   * `reply` the broker's answer to the one publish; the seconds slept are returned instead of slept.
   */
  method Collect(mapping: ProducerMapping, instance: Instance, d: Delivery, original: ProducerSetup, can: ProducerSetup,
                 encode: (Table, seq<bv8>) -> Result<seq<bv8>, Error>, reply: Option<Error>)
    returns (outcome: Outcome, slept: Option<nat>)
    requires instance.Valid()
    requires original.uuid.Ok? ==> original.uuid.value !in Uuids(instance.producers.list)
    requires can.uuid.Ok? ==> can.uuid.value !in Uuids(instance.producers.list)
    requires original.uuid.Ok? && can.uuid.Ok? ==> original.uuid.value != can.uuid.value
    modifies mapping, instance.producers, instance.rabbitMQ.broker
    ensures Handled(outcome, slept, Store(mapping.m, instance.producers.list, instance.rabbitMQ.broker.log)) ==
            HandleRun(MappedLookup(old(instance.rabbitMQ.broker.closed), instance.rabbitMQ.connected), d,
                      Store(old(mapping.m), old(instance.producers.list), old(instance.rabbitMQ.broker.log)),
                      original, can, encode, reply)
    ensures instance.rabbitMQ.broker.closed == old(instance.rabbitMQ.broker.closed)
    ensures instance.Valid()
  {
    var h := d.headers;
    if XDeathHeader !in h {
      return Returned(Some(Failure(XDeathMissingMsg))), None;
    }
    if FirstDeathExchangeHeader !in h {
      return Returned(Some(Failure(ExchangeMissingMsg))), None;
    }
    if FirstDeathQueueHeader !in h {
      return Returned(Some(Failure(QueueMissingMsg))), None;
    }
    var xDeath, exName, qName := h[XDeathHeader], h[FirstDeathExchangeHeader], h[FirstDeathQueueHeader];
    if !exName.FString? || !qName.FString? {
      return Panicked, None;
    }
    ghost var closed, connected := instance.rabbitMQ.broker.closed, instance.rabbitMQ.connected;
    ghost var s := Store(mapping.m, instance.producers.list, instance.rabbitMQ.broker.log);
    var p := GetMappedProducer(mapping, instance, exName.s, qName.s, "", original);
    assert MappedLookup(closed, connected)(s, exName.s, qName.s, "", original) ==
           (p, Store(mapping.m, instance.producers.list, instance.rabbitMQ.broker.log));
    if p.Err? {
      return Returned(Some(p.error)), None;
    }
    if can.uuid.Ok? {
      MappedKeepsAbsent(s.entries, s.list, closed, connected, exName.s, qName.s, "", original, s.log, can.uuid.value);
    }
    outcome, slept := Forward(mapping, instance, d, xDeath, exName.s, qName.s, p.value, can, encode, reply);
  }

  /** The handler once the original destination's producer p is resolved. */
  method Forward(mapping: ProducerMapping, instance: Instance, d: Delivery, xDeath: FieldValue, ex: string, q: string,
                 p: Producer, can: ProducerSetup, encode: (Table, seq<bv8>) -> Result<seq<bv8>, Error>, reply: Option<Error>)
    returns (outcome: Outcome, slept: Option<nat>)
    requires instance.Valid() && p.session.publishingOptions.Some?
    requires can.uuid.Ok? ==> can.uuid.value !in Uuids(instance.producers.list)
    modifies mapping, instance.producers, instance.rabbitMQ.broker
    ensures Handled(outcome, slept, Store(mapping.m, instance.producers.list, instance.rabbitMQ.broker.log)) ==
            Dispatch(MappedLookup(old(instance.rabbitMQ.broker.closed), instance.rabbitMQ.connected), d, xDeath, ex, q, p,
                     Store(old(mapping.m), old(instance.producers.list), old(instance.rabbitMQ.broker.log)),
                     can, encode, reply)
    ensures instance.rabbitMQ.broker.closed == old(instance.rabbitMQ.broker.closed)
    ensures instance.Valid()
  {
    if !xDeath.FArray? {
      return Panicked, None;
    }
    var count := CheckXDeathCount(xDeath.items);
    if count.None? {
      return Panicked, None;
    }
    if count.value <= MaxRetries {
      slept := Some(BackoffSeconds(count.value));
      var err := Publish(instance.rabbitMQ.broker, p, Publishing(d.headers, Persistent, d.body), reply);
      outcome := PublishVerdict(RetryFailedMsg(ex, q), err);
      return;
    }
    outcome := Quarantine(mapping, instance, d, can, encode, reply);
    slept := None;
  }

  /** The can path: the can queue's producer, the encoded delivery, one publish. */
  method Quarantine(mapping: ProducerMapping, instance: Instance, d: Delivery, can: ProducerSetup,
                    encode: (Table, seq<bv8>) -> Result<seq<bv8>, Error>, reply: Option<Error>)
    returns (outcome: Outcome)
    requires instance.Valid()
    requires can.uuid.Ok? ==> can.uuid.value !in Uuids(instance.producers.list)
    modifies mapping, instance.producers, instance.rabbitMQ.broker
    ensures Handled(outcome, None, Store(mapping.m, instance.producers.list, instance.rabbitMQ.broker.log)) ==
            Park(MappedLookup(old(instance.rabbitMQ.broker.closed), instance.rabbitMQ.connected), d,
                 Store(old(mapping.m), old(instance.producers.list), old(instance.rabbitMQ.broker.log)),
                 can, encode, reply)
    ensures instance.rabbitMQ.broker.closed == old(instance.rabbitMQ.broker.closed)
    ensures instance.Valid()
  {
    ghost var closed, connected := instance.rabbitMQ.broker.closed, instance.rabbitMQ.connected;
    ghost var s1 := Store(mapping.m, instance.producers.list, instance.rabbitMQ.broker.log);
    var p := GetMappedProducer(mapping, instance, FailedExchange, CanQueue, CanRoutingKey, can);
    assert MappedLookup(closed, connected)(s1, FailedExchange, CanQueue, CanRoutingKey, can) ==
           (p, Store(mapping.m, instance.producers.list, instance.rabbitMQ.broker.log));
    if p.Err? {
      return Returned(Some(p.error));
    }
    var body := encode(d.headers, d.body);
    if body.Err? {
      return Returned(Some(body.error));
    }
    var err := Publish(instance.rabbitMQ.broker, p.value, Publishing(d.headers, Persistent, body.value), reply);
    return PublishVerdict(CanPublishFailedMsg, err);
  }

  /**
   * The retry path of the event collector looks its producer up under "exchange.queue": once
   * that producer is mapped and live, a second dead letter from the same queue reuses it.
   */
  lemma RetryProducerReused(m: map<string, string>, list: seq<Unit<Producer>>, closed: set<ChannelId>,
                            ex: string, q: string, setup: ProducerSetup, log: seq<Call>, setup2: ProducerSetup)
    requires !((ex + "." + q) in m && LiveProducer(list, closed, m[ex + "." + q]).Some?)
    requires ex != "" && setup.channel.Ok? && setup.uuid.Ok? && setup.channel.value !in closed
    requires setup.uuid.value !in Uuids(list)
    ensures var out := MappedLookupRun(m, list, closed, true, ex, q, "", setup, log);
            var again := MappedLookupRun(out.entries, out.list, closed, true, ex, q, "", setup2, out.log);
            out.result.Ok? && again == out
  {
    var out := MappedLookupRun(m, list, closed, true, ex, q, "", setup, log);
    var key := ex + "." + q;
    var p := out.result.value;
    assert GetRoutingKey(p) == key;
    var pruned := if key in m then AfterGet(list, closed, m[key]) else list;
    if key in m {
      WithoutKeepsAbsent(list, m[key], p.uuid);
    }
    FindAppended(pruned, Unit(p.uuid, p));
  }
}

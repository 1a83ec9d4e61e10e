/**
 * The handler context (rabbitmq/ctx.go): a key/value store for one delivery, and the producer
 * lookup that caches producer UUIDs by routing key and registers a new producer on a miss.
 */
module RabbitCtx {
  import opened Wrappers
  import opened Errors
  import opened RabbitTypes
  import opened Broker
  import opened RabbitProducer
  import opened RabbitRegistry
  import opened RabbitInstance

  /** The exchange type GetProducer declares. */
  const DirectExchange: string := "direct"

  /**
   * The options GetProducer(exchangeName, queueName, routingKey) builds: a durable direct
   * exchange, a durable queue, and every other field at Go's zero value.
   */
  function DefaultOptions(exchangeName: string, queueName: string, routingKey: string): (o: ProducerRegisterOptions)
    ensures o.exchange.name == exchangeName && o.exchange.kind == DirectExchange && o.exchange.durable
    ensures !o.exchange.autoDelete && !o.exchange.internal && !o.exchange.noWait
    ensures o.queue.name == queueName && o.queue.durable && o.queue.args == map[]
    ensures !o.queue.autoDelete && !o.queue.exclusive && !o.queue.noWait
    ensures o.publishingOptions == PublishingOptions(routingKey, "", false, false)
  {
    ProducerRegisterOptions(Exchange(exchangeName, DirectExchange, true, false, false, false),
                            Queue(queueName, true, false, false, false, map[]),
                            PublishingOptions(routingKey, "", false, false))
  }

  /** The routing key the cache is consulted under: the configured one, or "exchange.queue" when that is empty. */
  function LookupKey(o: ProducerRegisterOptions): (key: string)
    ensures key != ""
    ensures o.publishingOptions.routingKey != "" ==> key == o.publishingOptions.routingKey
    ensures o.publishingOptions.routingKey == "" ==> key == o.exchange.name + "." + o.queue.name
  {
    if o.publishingOptions.routingKey == "" then o.exchange.name + "." + o.queue.name else o.publishingOptions.routingKey
  }

  /** The options with the empty routing key filled in; everything else as given. */
  function Resolved(o: ProducerRegisterOptions): (r: ProducerRegisterOptions)
    ensures r.exchange == o.exchange && r.queue == o.queue
    ensures r.publishingOptions == o.publishingOptions.(routingKey := LookupKey(o))
  {
    o.(publishingOptions := o.publishingOptions.(routingKey := LookupKey(o)))
  }

  /** Filling in the routing key twice is filling it in once, and keeps the lookup key. */
  lemma ResolvedIdempotent(o: ProducerRegisterOptions)
    ensures Resolved(Resolved(o)) == Resolved(o)
    ensures LookupKey(Resolved(o)) == LookupKey(o)
  {
  }

  /** The producer list after Instance.GetProducer(uuid): a producer whose channel is closed is dropped. */
  function AfterGet(list: seq<Unit<Producer>>, closed: set<ChannelId>, uuid: string): (r: seq<Unit<Producer>>)
    ensures LiveProducer(list, closed, uuid).Some? ==> r == list
    ensures Find(list, uuid).None? ==> r == list
  {
    if Find(list, uuid).Some? && LiveProducer(list, closed, uuid).None? then Without(list, uuid) else list
  }

  /** What GetProducerWithOptions leaves: its result, the cache, the producer list and the broker log. */
  datatype Lookup = Lookup(result: Result<Producer, Error>, entries: map<string, string>,
                           list: seq<Unit<Producer>>, log: seq<Call>)

  /**
   * GetProducerWithOptions as a function of the cache, the producer list, the closed channels,
   * the connection state and what a registration would draw: a cached UUID whose producer is
   * live is the answer; a stale one is deleted and, like a missing one, leads to a registration
   * whose producer is cached under its own routing key.
   */
  function GetProducerRun(entries: map<string, string>, list: seq<Unit<Producer>>, closed: set<ChannelId>,
                          connected: bool, o: ProducerRegisterOptions, setup: ProducerSetup, log: seq<Call>): (r: Lookup)
    ensures r.log == log || (connected && r.log == log + [ChannelOpen])
    ensures |r.list| <= |list| + 1
    ensures r.result.Err? ==> LookupKey(o) !in r.entries
  {
    var key := LookupKey(o);
    if key in entries && LiveProducer(list, closed, entries[key]).Some? then
      Lookup(Ok(LiveProducer(list, closed, entries[key]).value), entries, list, log)
    else
      var r := Resolved(o);
      var pruned := if key in entries then AfterGet(list, closed, entries[key]) else list;
      var p := NewProducerResult(connected, r.exchange, r.queue, r.publishingOptions, setup);
      var log' := log + if connected then [ChannelOpen] else [];
      if p.Err? then Lookup(p, entries - {key}, pruned, log')
      else Lookup(p, (entries - {key})[GetRoutingKey(p.value) := p.value.uuid], pruned + [Unit(p.value.uuid, p.value)], log')
  }

  /** A cached UUID whose producer is live is returned, and nothing is registered or changed. */
  lemma CacheHit(entries: map<string, string>, list: seq<Unit<Producer>>, closed: set<ChannelId>,
                 connected: bool, o: ProducerRegisterOptions, setup: ProducerSetup, log: seq<Call>)
    requires LookupKey(o) in entries
    requires Find(list, entries[LookupKey(o)]).Some?
    requires list[Find(list, entries[LookupKey(o)]).value].handle.channel !in closed
    ensures var out := GetProducerRun(entries, list, closed, connected, o, setup, log);
            out.result == Ok(list[Find(list, entries[LookupKey(o)]).value].handle) &&
            out.entries == entries && out.list == list && out.log == log
  {
  }

  /**
   * Without a live cached producer, the lookup key is gone from the cache before the
   * registration; a failed registration returns its error and adds no entry, and a stale
   * producer is dropped from the list.
   */
  lemma CacheMiss(entries: map<string, string>, list: seq<Unit<Producer>>, closed: set<ChannelId>,
                  connected: bool, o: ProducerRegisterOptions, setup: ProducerSetup, log: seq<Call>)
    requires !(LookupKey(o) in entries && LiveProducer(list, closed, entries[LookupKey(o)]).Some?)
    ensures var out := GetProducerRun(entries, list, closed, connected, o, setup, log);
            var r := Resolved(o);
            out.result == NewProducerResult(connected, r.exchange, r.queue, r.publishingOptions, setup) &&
            out.log == log + (if connected then [ChannelOpen] else []) &&
            (out.result.Err? ==> out.entries == entries - {LookupKey(o)} && out.entries.Keys <= entries.Keys) &&
            (out.result.Ok? ==> out.entries == (entries - {LookupKey(o)})[GetRoutingKey(out.result.value) := out.result.value.uuid]) &&
            (LookupKey(o) in entries && Find(list, entries[LookupKey(o)]).Some? ==>
               entries[LookupKey(o)] !in Uuids(out.list[..|out.list| - (if out.result.Ok? then 1 else 0)]))
  {
    var key := LookupKey(o);
    var out := GetProducerRun(entries, list, closed, connected, o, setup, log);
    if key in entries && Find(list, entries[key]).Some? {
      var pruned := Without(list, entries[key]);
      assert out.list[..|out.list| - (if out.result.Ok? then 1 else 0)] == pruned;
      forall i | 0 <= i < |pruned| ensures Uuids(pruned)[i] != entries[key] {
      }
    }
  }

  /** A new producer is cached under its own routing key, and the rest of the cache is as before the lookup. */
  lemma RegisteredIsCached(entries: map<string, string>, list: seq<Unit<Producer>>, closed: set<ChannelId>,
                           connected: bool, o: ProducerRegisterOptions, setup: ProducerSetup, log: seq<Call>)
    requires !(LookupKey(o) in entries && LiveProducer(list, closed, entries[LookupKey(o)]).Some?)
    requires connected && setup.channel.Ok? && setup.uuid.Ok?
    ensures var out := GetProducerRun(entries, list, closed, connected, o, setup, log);
            out.result.Ok? && out.result.value.uuid == setup.uuid.value &&
            out.result.value.session.publishingOptions == Some(Resolved(o).publishingOptions) &&
            GetRoutingKey(out.result.value) in out.entries &&
            out.entries[GetRoutingKey(out.result.value)] == setup.uuid.value &&
            out.list[|out.list| - 1] == Unit(setup.uuid.value, out.result.value) &&
            forall k :: k in entries && k != LookupKey(o) && k != GetRoutingKey(out.result.value) ==>
                        k in out.entries && out.entries[k] == entries[k]
  {
  }

  /**
   * With a named exchange the new producer is cached under the lookup key itself, so the next
   * lookup with the same options finds it while its channel stays open.
   */
  lemma {:induction false} SecondLookupHits(entries: map<string, string>, list: seq<Unit<Producer>>, closed: set<ChannelId>,
                                            connected: bool, o: ProducerRegisterOptions, setup: ProducerSetup, log: seq<Call>,
                                            setup2: ProducerSetup)
    requires !(LookupKey(o) in entries && LiveProducer(list, closed, entries[LookupKey(o)]).Some?)
    requires connected && setup.channel.Ok? && setup.uuid.Ok? && setup.channel.value !in closed
    requires setup.uuid.value !in Uuids(list)
    requires o.exchange.name != ""
    ensures var out := GetProducerRun(entries, list, closed, connected, o, setup, log);
            var again := GetProducerRun(out.entries, out.list, closed, connected, o, setup2, out.log);
            again.result == out.result && again.entries == out.entries && again.list == out.list && again.log == out.log
  {
    var key := LookupKey(o);
    var out := GetProducerRun(entries, list, closed, connected, o, setup, log);
    var p := out.result.value;
    assert GetRoutingKey(p) == key;
    var pruned := if key in entries then AfterGet(list, closed, entries[key]) else list;
    if key in entries {
      WithoutKeepsAbsent(list, entries[key], p.uuid);
    }
    FindAppended(pruned, Unit(p.uuid, p));
    assert out.list == pruned + [Unit(p.uuid, p)];
  }

  /**
   * The lock order of ProducerList.Get as written is reachable from a lookup: a producer that
   * was registered and cached, and whose channel the broker then closed, makes the next lookup
   * with the same options block in Get instead of registering a replacement.
   */
  lemma {:induction false} StaleProducerHangs(entries: map<string, string>, list: seq<Unit<Producer>>, closed: set<ChannelId>,
                                              connected: bool, o: ProducerRegisterOptions, setup: ProducerSetup, log: seq<Call>)
    requires !(LookupKey(o) in entries && LiveProducer(list, closed, entries[LookupKey(o)]).Some?)
    requires connected && setup.channel.Ok? && setup.uuid.Ok?
    requires setup.uuid.value !in Uuids(list)
    requires o.exchange.name != ""
    ensures var out := GetProducerRun(entries, list, closed, connected, o, setup, log);
            LookupKey(o) in out.entries &&
            GetAsWritten(out.list, closed + {setup.channel.value}, out.entries[LookupKey(o)]) == Hung
  {
    var key := LookupKey(o);
    var out := GetProducerRun(entries, list, closed, connected, o, setup, log);
    var p := out.result.value;
    assert GetRoutingKey(p) == key;
    var pruned := if key in entries then AfterGet(list, closed, entries[key]) else list;
    if key in entries {
      WithoutKeepsAbsent(list, entries[key], p.uuid);
    }
    FindAppended(pruned, Unit(p.uuid, p));
    assert out.list == pruned + [Unit(p.uuid, p)];
  }

  /**
   * With the default (empty-named) exchange and no routing key, the producer is cached under
   * the queue name while the lookup uses ".queue": the lookup key is missing afterwards, and
   * the next lookup with the same options registers yet another producer.
   */
  lemma EmptyExchangeMisses(entries: map<string, string>, list: seq<Unit<Producer>>, closed: set<ChannelId>,
                            connected: bool, o: ProducerRegisterOptions, setup: ProducerSetup, log: seq<Call>,
                            setup2: ProducerSetup)
    requires !(LookupKey(o) in entries && LiveProducer(list, closed, entries[LookupKey(o)]).Some?)
    requires connected && setup.channel.Ok? && setup.uuid.Ok? && setup2.channel.Ok? && setup2.uuid.Ok?
    requires o.exchange.name == "" && o.publishingOptions.routingKey == ""
    ensures var out := GetProducerRun(entries, list, closed, connected, o, setup, log);
            var again := GetProducerRun(out.entries, out.list, closed, connected, o, setup2, out.log);
            LookupKey(o) == "." + o.queue.name && LookupKey(o) !in out.entries &&
            out.entries[o.queue.name] == setup.uuid.value &&
            again.result.Ok? && again.result.value.uuid == setup2.uuid.value && |again.list| == |out.list| + 1
  {
    assert |LookupKey(o)| == |o.queue.name| + 1;
  }

  /** A lookup adds no UUID to the producer list but the one its registration draws. */
  lemma LookupKeepsAbsent(entries: map<string, string>, list: seq<Unit<Producer>>, closed: set<ChannelId>,
                          connected: bool, o: ProducerRegisterOptions, setup: ProducerSetup, log: seq<Call>, other: string)
    requires other !in Uuids(list)
    requires setup.uuid.Ok? ==> other != setup.uuid.value
    ensures other !in Uuids(GetProducerRun(entries, list, closed, connected, o, setup, log).list)
  {
    var key := LookupKey(o);
    if !(key in entries && LiveProducer(list, closed, entries[key]).Some?) {
      var pruned := if key in entries then AfterGet(list, closed, entries[key]) else list;
      if key in entries {
        WithoutKeepsAbsent(list, entries[key], other);
      }
      var out := GetProducerRun(entries, list, closed, connected, o, setup, log);
      if out.result.Ok? {
        UuidsAppend(pruned, Unit(out.result.value.uuid, out.result.value));
      }
    }
  }

  /** The process-wide producersMap: routing key to producer UUID. */
  class ProducerCache {
    var entries: map<string, string>

    constructor ()
      ensures entries == map[]
    {
      entries := map[];
    }
  }

  /** ctx: the values a handler stores, the instance, and the shared producer cache. */
  class Ctx<V> {
    var m: map<string, V>
    const instance: Instance
    const cache: ProducerCache

    /** NewCtxFromContext: an empty store over the instance. */
    constructor NewCtxFromContext(instance: Instance, cache: ProducerCache)
      ensures this.instance == instance && this.cache == cache
      ensures forall key :: Get(key) == None
    {
      m := map[];
      this.instance := instance;
      this.cache := cache;
    }

    /** Get: the stored value, or nil (None) for a key never set. */
    function Get(key: string): (v: Option<V>)
      reads this
      ensures v.Some? <==> key in m
      ensures v.Some? ==> v.value == m[key]
    {
      if key in m then Some(m[key]) else None
    }

    /** Set: stores the value under the key; the other keys keep theirs. */
    method Set(key: string, value: V)
      modifies this`m
      ensures Get(key) == Some(value)
      ensures forall k :: k != key ==> Get(k) == old(Get(k))
      ensures m == old(m)[key := value]
    {
      m := m[key := value];
    }

    /** GetProducerByUUID: the instance's lookup. */
    method GetProducerByUUID(uuid: string) returns (p: Option<Producer>)
      requires instance.Valid()
      modifies instance.producers
      ensures p == LiveProducer(old(instance.producers.list), instance.rabbitMQ.broker.closed, uuid)
      ensures instance.producers.list == AfterGet(old(instance.producers.list), instance.rabbitMQ.broker.closed, uuid)
      ensures instance.Valid()
    {
      p := instance.GetProducer(uuid);
    }

    /** GetProducerWithOptions: the cached producer for the options' routing key, or a new one. */
    method GetProducerWithOptions(options: ProducerRegisterOptions, setup: ProducerSetup) returns (p: Result<Producer, Error>)
      requires instance.Valid()
      requires setup.uuid.Ok? ==> setup.uuid.value !in Uuids(instance.producers.list)
      modifies cache, instance.producers, instance.rabbitMQ.broker
      ensures Lookup(p, cache.entries, instance.producers.list, instance.rabbitMQ.broker.log) ==
              GetProducerRun(old(cache.entries), old(instance.producers.list), old(instance.rabbitMQ.broker.closed),
                             instance.rabbitMQ.connected, options, setup, old(instance.rabbitMQ.broker.log))
      ensures instance.rabbitMQ.broker.closed == old(instance.rabbitMQ.broker.closed)
      ensures p.Ok? ==> p.value.session.publishingOptions.Some?
      ensures instance.Valid()
    {
      var o := Resolved(options);
      var key := o.publishingOptions.routingKey;
      var found := Evict(key, if setup.uuid.Ok? then Some(setup.uuid.value) else None);
      if found.Some? {
        return Ok(found.value);
      }
      p := instance.RegisterProducer(o, setup);
      if p.Err? {
        return p;
      }
      cache.entries := cache.entries[GetRoutingKey(p.value) := p.value.uuid];
    }

    /**
     * The cache half of GetProducerWithOptions: the live producer cached under key, or else the
     * key removed from the cache (and a stale producer from the list).
     */
    method Evict(key: string, ghost avoid: Option<string>) returns (found: Option<Producer>)
      requires instance.Valid()
      requires avoid.Some? ==> avoid.value !in Uuids(instance.producers.list)
      modifies cache, instance.producers
      ensures found.Some? <==> key in old(cache.entries) &&
                               LiveProducer(old(instance.producers.list), instance.rabbitMQ.broker.closed, old(cache.entries)[key]).Some?
      ensures found.Some? ==> found == LiveProducer(old(instance.producers.list), instance.rabbitMQ.broker.closed, old(cache.entries)[key]) &&
                              cache.entries == old(cache.entries) && instance.producers.list == old(instance.producers.list)
      ensures found.None? ==> cache.entries == old(cache.entries) - {key} &&
                              instance.producers.list == if key in old(cache.entries)
                                                         then AfterGet(old(instance.producers.list), instance.rabbitMQ.broker.closed, old(cache.entries)[key])
                                                         else old(instance.producers.list)
      ensures avoid.Some? ==> avoid.value !in Uuids(instance.producers.list)
      ensures instance.Valid()
    {
      if key in cache.entries {
        var uuid := cache.entries[key];
        ghost var list0 := instance.producers.list;
        found := GetProducerByUUID(uuid);
        if found.Some? {
          return;
        }
        if Find(list0, uuid).Some? && avoid.Some? {
          WithoutKeepsAbsent(list0, uuid, avoid.value);
        }
        cache.entries := cache.entries - {key};
      } else {
        found := None;
      }
    }

    /** GetProducer: GetProducerWithOptions on a durable direct exchange and a durable queue. */
    method GetProducer(exchangeName: string, queueName: string, routingKey: string, setup: ProducerSetup)
      returns (p: Result<Producer, Error>)
      requires instance.Valid()
      requires setup.uuid.Ok? ==> setup.uuid.value !in Uuids(instance.producers.list)
      modifies cache, instance.producers, instance.rabbitMQ.broker
      ensures Lookup(p, cache.entries, instance.producers.list, instance.rabbitMQ.broker.log) ==
              GetProducerRun(old(cache.entries), old(instance.producers.list), old(instance.rabbitMQ.broker.closed),
                             instance.rabbitMQ.connected, DefaultOptions(exchangeName, queueName, routingKey), setup,
                             old(instance.rabbitMQ.broker.log))
      ensures instance.rabbitMQ.broker.closed == old(instance.rabbitMQ.broker.closed)
      ensures p.Ok? ==> p.value.session.publishingOptions.Some?
      ensures instance.Valid()
    {
      p := GetProducerWithOptions(DefaultOptions(exchangeName, queueName, routingKey), setup);
    }
  }
}

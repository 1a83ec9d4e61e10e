/**
 * The failed-message collector's decision procedure, shared by both copies of it
 * (consumers/notification/v1 and event/notification): the x-death count, the header checks,
 * the back-off, and where a dead-lettered message goes next.
 */
module DeadLetter {
  import opened Wrappers
  import opened Errors
  import opened RabbitTypes
  import opened Broker
  import opened RabbitProducer
  import opened RabbitRegistry
  import opened StrUtils

  const XDeathHeader: string := "x-death"
  const FirstDeathExchangeHeader: string := "x-first-death-exchange"
  const FirstDeathQueueHeader: string := "x-first-death-queue"

  const XDeathMissingMsg: string := "x-death is missing"
  const ExchangeMissingMsg: string := "x-first-death-exchange is missing"
  const QueueMissingMsg: string := "x-first-death-queue is missing"
  const CanPublishFailedMsg: string := "[RabbitMQ.Producer.FailedMessageCollector] publish can queue failed."

  /** The message a failed republish to exchange ex and queue q is wrapped with. */
  function RetryFailedMsg(ex: string, q: string): string
  {
    "[RabbitMQ.Producer.FailedMessageCollector] publish original queue (" + ex + "." + q + ") failed."
  }

  /** Where a message that died too often is parked: the can queue on the failure exchange. */
  const FailedExchange: string := "notification_failed"
  const CanQueue: string := "notification_failed_can"
  const CanRoutingKey: string := "notification_failed.notification_failed_can"
  const CollectorQueue: string := "notification_failed_collector"
  const CollectorRoutingKey: string := "notification_failed.notification_failed_collector"
  const CollectorTag: string := "HitokotoFailedMessageCollectWorker"

  /** Above this many deaths a message is parked instead of retried. */
  const MaxRetries: int := 5

  /**
   * The collector's consumer options: a durable direct exchange, a durable queue whose dead
   * letters go back to that exchange under the queue's own binding key, and a consumer that
   * acknowledges by the handler's error.
   */
  function CollectorOptions(): (o: ConsumerRegisterOptions)
    ensures o.exchange.name == FailedExchange && o.exchange.kind == "direct" && o.exchange.durable
    ensures o.queue.name == CollectorQueue && o.queue.durable
    ensures o.queue.args.Keys == {"x-dead-letter-exchange", "x-dead-letter-routing-key"}
    ensures o.queue.args["x-dead-letter-exchange"] == FString(o.exchange.name)
    ensures o.queue.args["x-dead-letter-routing-key"] == FString(o.bindingOptions.routingKey)
    ensures o.bindingOptions.routingKey == CollectorRoutingKey
    ensures o.consumerOptions.tag == CollectorTag && o.consumerOptions.ackByError && !o.consumerOptions.autoAck
  {
    ConsumerRegisterOptions(
      Exchange(FailedExchange, "direct", true, false, false, false),
      Queue(CollectorQueue, true, false, false, false,
            map["x-dead-letter-exchange" := FString(FailedExchange),
                "x-dead-letter-routing-key" := FString(CollectorRoutingKey)]),
      BindingOptions(CollectorRoutingKey, false),
      ConsumerOptions(CollectorTag, false, true, false, false, false),
      Handler("HitokotoFailedMessageCollectEvent"))
  }

  // ---------------------------------------------------------------------------------------
  // checkXDeathCount

  const TwoTo64: int := 0x1_0000_0000_0000_0000

  /** An integer brought into the int64 range the way a 64-bit two's-complement sum wraps. */
  function WrapInt64(v: int): (w: int)
    ensures InInt64(w)
    ensures InInt64(v) ==> w == v
    ensures (w - v) % TwoTo64 == 0
  {
    (v - MinInt64) % TwoTo64 + MinInt64
  }

  /** Wrapping a partial sum first does not change the wrapped total. */
  lemma WrapAdd(a: int, b: int)
    ensures WrapInt64(WrapInt64(a) + b) == WrapInt64(a + b)
  {
    var k := (a - MinInt64) / TwoTo64;
    assert WrapInt64(a) == a - k * TwoTo64;
    assert (WrapInt64(a) + b - MinInt64) == (a + b - MinInt64) + (-k) * TwoTo64;
    ModShift(a + b - MinInt64, -k);
  }

  lemma ModShift(x: int, k: int)
    ensures (x + k * TwoTo64) % TwoTo64 == x % TwoTo64
  {
    var q, r := x / TwoTo64, x % TwoTo64;
    assert x + k * TwoTo64 == (q + k) * TwoTo64 + r;
  }

  /**
   * One death record's count: the record must be a table with an int64 "count"; anything
   * else makes the handler panic (the nil or mistyped value is type-asserted).
   */
  function RecordCount(record: FieldValue): (c: Option<int>)
    ensures c.Some? <==> record.FTable? && "count" in record.t && record.t["count"].FInt64?
    ensures c.Some? ==> c.value == record.t["count"].i
  {
    if record.FTable? && "count" in record.t && record.t["count"].FInt64? then Some(record.t["count"].i) else None
  }

  /** The int64 running sum of the counts, left to right; None when some record panics. */
  function XDeathSum(records: seq<FieldValue>): (c: Option<int>)
    ensures c.Some? ==> InInt64(c.value)
    ensures c.Some? ==> forall i :: 0 <= i < |records| ==> RecordCount(records[i]).Some?
  {
    if |records| == 0 then Some(0)
    else
      var n := |records| - 1;
      match XDeathSum(records[..n])
      case None => None
      case Some(acc) =>
        match RecordCount(records[n])
        case None => None
        case Some(c) => Some(WrapInt64(acc + c))
  }

  /** The plain sum of the counts of records that all have one. */
  function CountTotal(records: seq<FieldValue>): int
    requires forall i :: 0 <= i < |records| ==> RecordCount(records[i]).Some?
  {
    if |records| == 0 then 0
    else CountTotal(records[..|records| - 1]) + RecordCount(records[|records| - 1]).value
  }

  /**
   * The running sum is the plain total wrapped once into int64; so it is the plain total
   * whenever that fits, and it always lies in the int64 range.
   */
  lemma {:induction false} XDeathSumIsWrappedTotal(records: seq<FieldValue>)
    requires forall i :: 0 <= i < |records| ==> RecordCount(records[i]).Some?
    ensures XDeathSum(records) == Some(WrapInt64(CountTotal(records)))
    ensures InInt64(CountTotal(records)) ==> XDeathSum(records) == Some(CountTotal(records))
  {
    if |records| > 0 {
      var n := |records| - 1;
      XDeathSumIsWrappedTotal(records[..n]);
      WrapAdd(CountTotal(records[..n]), RecordCount(records[n]).value);
    }
  }

  /** A record without an int64 count anywhere in the list makes the whole count panic. */
  lemma {:induction false} XDeathSumPanics(records: seq<FieldValue>, i: nat)
    requires i < |records| && RecordCount(records[i]).None?
    ensures XDeathSum(records) == None
  {
    var n := |records| - 1;
    if i < n {
      assert records[..n][i] == records[i];
      XDeathSumPanics(records[..n], i);
    }
  }

  /** With no death records the count is zero; a single record gives its own count. */
  lemma XDeathSumSmall(r: FieldValue)
    requires RecordCount(r).Some? && InInt64(RecordCount(r).value)
    ensures XDeathSum([]) == Some(0)
    ensures XDeathSum([r]) == Some(RecordCount(r).value)
  {
    assert [r][..0] == [];
  }

  /** checkXDeathCount: the int64 sum of the records' counts, panicking (None) at a record without one. */
  method CheckXDeathCount(records: seq<FieldValue>) returns (count: Option<int>)
    ensures count == XDeathSum(records)
    ensures count.Some? ==> InInt64(count.value)
  {
    var sum := 0;
    for i := 0 to |records|
      invariant XDeathSum(records[..i]) == Some(sum) && InInt64(sum)
    {
      var c := RecordCount(records[i]);
      if c.None? {
        XDeathSumPanics(records, i);
        return None;
      }
      assert records[..i + 1][..i] == records[..i];
      sum := WrapInt64(sum + c.value);
    }
    assert records[..|records|] == records;
    return Some(sum);
  }

  /** The x-death header's count: the header must be an array of records, or the handler panics. */
  function XDeathCount(header: FieldValue): (c: Option<int>)
    ensures c.Some? ==> header.FArray? && InInt64(c.value)
    ensures c.Some? ==> forall i :: 0 <= i < |header.items| ==> RecordCount(header.items[i]).Some?
  {
    if header.FArray? then XDeathSum(header.items) else None
  }

  // ---------------------------------------------------------------------------------------
  // The back-off

  function Pow4(n: nat): (p: nat)
    ensures p >= 1
  {
    if n == 0 then 1 else 4 * Pow4(n - 1)
  }

  /**
   * The seconds slept before a retry: 4^count, the float power truncated to whole seconds,
   * so 0 for a negative count.
   */
  function BackoffSeconds(count: int): (b: nat)
    ensures b == 0 <==> count < 0
    ensures count <= MaxRetries ==> b <= 1024
  {
    if count < 0 then 0
    else
      assert count <= MaxRetries ==> Pow4(count) <= 1024 by {
        assert Pow4(5) == 4 * Pow4(4) && Pow4(4) == 4 * Pow4(3) && Pow4(3) == 4 * Pow4(2);
        assert Pow4(2) == 4 * Pow4(1) && Pow4(1) == 4 * Pow4(0);
      }
      Pow4(count)
  }

  /** The back-offs of counts 0 to 5 are 1, 4, 16, 64, 256 and 1024 seconds; each further death multiplies by four. */
  lemma BackoffTable(count: int)
    ensures BackoffSeconds(0) == 1 && BackoffSeconds(1) == 4 && BackoffSeconds(2) == 16
    ensures BackoffSeconds(3) == 64 && BackoffSeconds(4) == 256 && BackoffSeconds(5) == 1024
    ensures count >= 0 ==> BackoffSeconds(count + 1) == 4 * BackoffSeconds(count)
    ensures count < 0 ==> BackoffSeconds(count) == 0
  {
    assert Pow4(5) == 4 * Pow4(4) && Pow4(4) == 4 * Pow4(3) && Pow4(3) == 4 * Pow4(2);
  }

  // ---------------------------------------------------------------------------------------
  // The handler

  /** What the three header checks decide. */
  datatype Route =
    | MissingHeader(err: Error)
    | NameNotString
    | Destination(xDeath: FieldValue, exchange: string, queue: string)

  /**
   * The header checks, in the handler's order: x-death, then the first death's exchange, then
   * its queue, each with its own error; the two names are then type-asserted to strings.
   */
  function RouteOf(h: Table): (r: Route)
    ensures XDeathHeader !in h ==> r == MissingHeader(Failure(XDeathMissingMsg))
    ensures XDeathHeader in h && FirstDeathExchangeHeader !in h ==> r == MissingHeader(Failure(ExchangeMissingMsg))
    ensures XDeathHeader in h && FirstDeathExchangeHeader in h && FirstDeathQueueHeader !in h ==>
              r == MissingHeader(Failure(QueueMissingMsg))
    ensures r.MissingHeader? <==> !(XDeathHeader in h && FirstDeathExchangeHeader in h && FirstDeathQueueHeader in h)
    ensures r.Destination? <==> XDeathHeader in h && FirstDeathExchangeHeader in h && FirstDeathQueueHeader in h &&
                                h[FirstDeathExchangeHeader].FString? && h[FirstDeathQueueHeader].FString?
    ensures r.Destination? ==> r.xDeath == h[XDeathHeader] && r.exchange == h[FirstDeathExchangeHeader].s &&
                               r.queue == h[FirstDeathQueueHeader].s
  {
    if XDeathHeader !in h then MissingHeader(Failure(XDeathMissingMsg))
    else if FirstDeathExchangeHeader !in h then MissingHeader(Failure(ExchangeMissingMsg))
    else if FirstDeathQueueHeader !in h then MissingHeader(Failure(QueueMissingMsg))
    else if !h[FirstDeathExchangeHeader].FString? || !h[FirstDeathQueueHeader].FString? then NameNotString
    else Destination(h[XDeathHeader], h[FirstDeathExchangeHeader].s, h[FirstDeathQueueHeader].s)
  }

  /** The producer cache or mapping, the producer list and the broker log, which a lookup may change. */
  datatype Store = Store(entries: map<string, string>, list: seq<Unit<Producer>>, log: seq<Call>)

  /** A producer lookup by exchange, queue and routing key: the producer or error, and the new store. */
  type LookupFn = (Store, string, string, string, ProducerSetup) -> (Result<Producer, Error>, Store)

  /** The broker call Publish makes; a producer without publishing options dereferences nil (None). */
  function PublishCall(p: Producer, msg: Publishing): (call: Option<Call>)
    ensures call.Some? <==> p.session.publishingOptions.Some?
    ensures call.Some? ==> call.value == BasicPublish(p.channel, p.session.exchange.name, GetRoutingKey(p),
                                                      p.session.publishingOptions.value.mandatory,
                                                      p.session.publishingOptions.value.immediate, msg)
  {
    if p.session.publishingOptions.None? then None
    else
      var po := p.session.publishingOptions.value;
      Some(BasicPublish(p.channel, p.session.exchange.name, GetRoutingKey(p), po.mandatory, po.immediate, msg))
  }

  /** How the handler ends: with its returned error (nil for None), or by panicking. */
  datatype Outcome = Returned(err: Option<Error>) | Panicked

  /** The handler's outcome, the seconds it slept (None when it did not sleep) and the store it leaves. */
  datatype Handled = Handled(outcome: Outcome, slept: Option<nat>, store: Store)

  /** The handler's error after a publish: the broker's error wrapped with msg, or nil. */
  function PublishVerdict(msg: string, reply: Option<Error>): (o: Outcome)
    ensures o.Returned? && (o.err.None? <==> reply.None?)
    ensures reply.Some? ==> o.err == Some(Wrapped(msg, reply.value))
  {
    Returned(if reply.Some? then Some(Wrapped(msg, reply.value)) else None)
  }

  /**
   * The collector's handler as a function of the delivery, the store, the lookup it uses,
   * what the two possible registrations would draw, the encoder and the broker's answer to
   * the publish: the headers are checked, the original destination's producer is resolved
   * with an empty routing key, and only then is the count examined; up to five deaths mean a
   * back-off and a persistent republish of the delivery as it came, more mean a persistent
   * publish of the encoded headers and body to the can queue.
   */
  function HandleRun(lookup: LookupFn, d: Delivery, s: Store, original: ProducerSetup, can: ProducerSetup,
                     encode: (Table, seq<bv8>) -> Result<seq<bv8>, Error>, reply: Option<Error>): (h: Handled)
    ensures !RouteOf(d.headers).Destination? ==> h.store == s && h.slept.None?
    ensures h.slept.Some? ==> h.slept.value <= 1024
    ensures h.outcome == Returned(None) ==> |h.store.log| > 0 && h.store.log[|h.store.log| - 1].BasicPublish?
  {
    match RouteOf(d.headers)
    case MissingHeader(e) => Handled(Returned(Some(e)), None, s)
    case NameNotString => Handled(Panicked, None, s)
    case Destination(x, ex, q) =>
      var (r1, s1) := lookup(s, ex, q, "", original);
      if r1.Err? then Handled(Returned(Some(r1.error)), None, s1)
      else Dispatch(lookup, d, x, ex, q, r1.value, s1, can, encode, reply)
  }

  /** The handler once the original destination's producer p is known: the count decides between retry and can. */
  function Dispatch(lookup: LookupFn, d: Delivery, xDeath: FieldValue, ex: string, q: string, p: Producer, s1: Store,
                    can: ProducerSetup, encode: (Table, seq<bv8>) -> Result<seq<bv8>, Error>, reply: Option<Error>): (h: Handled)
    ensures h.slept.Some? <==> XDeathCount(xDeath).Some? && XDeathCount(xDeath).value <= MaxRetries
    ensures h.slept.Some? ==> h.slept.value <= 1024
    ensures h.outcome == Returned(None) ==> |h.store.log| > 0 && h.store.log[|h.store.log| - 1].BasicPublish?
  {
    match XDeathCount(xDeath)
    case None => Handled(Panicked, None, s1)
    case Some(count) =>
      if count <= MaxRetries then
        var slept := Some(BackoffSeconds(count));
        match PublishCall(p, Publishing(d.headers, Persistent, d.body))
        case None => Handled(Panicked, slept, s1)
        case Some(call) => Handled(PublishVerdict(RetryFailedMsg(ex, q), reply), slept, s1.(log := s1.log + [call]))
      else Park(lookup, d, s1, can, encode, reply)
  }

  /** The can path: look up the can producer, encode the delivery, publish it. */
  function Park(lookup: LookupFn, d: Delivery, s1: Store, can: ProducerSetup,
                encode: (Table, seq<bv8>) -> Result<seq<bv8>, Error>, reply: Option<Error>): (h: Handled)
    ensures h.slept.None?
    ensures h.outcome == Returned(None) ==> |h.store.log| > 0 && h.store.log[|h.store.log| - 1].BasicPublish?
  {
    var (r2, s2) := lookup(s1, FailedExchange, CanQueue, CanRoutingKey, can);
    if r2.Err? then Handled(Returned(Some(r2.error)), None, s2)
    else match encode(d.headers, d.body)
      case Err(e) => Handled(Returned(Some(e)), None, s2)
      case Ok(body) =>
        match PublishCall(r2.value, Publishing(d.headers, Persistent, body))
        case None => Handled(Panicked, None, s2)
        case Some(call) => Handled(PublishVerdict(CanPublishFailedMsg, reply), None, s2.(log := s2.log + [call]))
  }

  /** A missing header ends the handler with its error before any lookup: nothing is published or changed. */
  lemma MissingHeaderStops(lookup: LookupFn, d: Delivery, s: Store, original: ProducerSetup, can: ProducerSetup,
                           encode: (Table, seq<bv8>) -> Result<seq<bv8>, Error>, reply: Option<Error>)
    requires !(XDeathHeader in d.headers && FirstDeathExchangeHeader in d.headers && FirstDeathQueueHeader in d.headers)
    ensures var h := HandleRun(lookup, d, s, original, can, encode, reply);
            h.store == s && h.slept == None && h.outcome.Returned? &&
            h.outcome.err == Some(Failure(if XDeathHeader !in d.headers then XDeathMissingMsg
                                          else if FirstDeathExchangeHeader !in d.headers then ExchangeMissingMsg
                                          else QueueMissingMsg))
  {
  }

  /**
   * The original destination's producer is resolved, with an empty routing key, before the
   * count is looked at: when that fails its error is returned, whatever the count, and no
   * publish or second lookup follows.
   */
  lemma ResolveBeforeCount(lookup: LookupFn, d: Delivery, s: Store, original: ProducerSetup, can: ProducerSetup,
                           encode: (Table, seq<bv8>) -> Result<seq<bv8>, Error>, reply: Option<Error>)
    requires RouteOf(d.headers).Destination?
    requires var r := RouteOf(d.headers); lookup(s, r.exchange, r.queue, "", original).0.Err?
    ensures var r := RouteOf(d.headers);
            var (r1, s1) := lookup(s, r.exchange, r.queue, "", original);
            HandleRun(lookup, d, s, original, can, encode, reply) == Handled(Returned(Some(r1.error)), None, s1)
  {
  }

  /**
   * Up to five deaths: the handler sleeps 4^count seconds and republishes the delivery,
   * persistent, with its headers and body unchanged, through the original destination's
   * producer; a publish error comes back wrapped with the destination's name.
   */
  lemma RetryRepublishes(lookup: LookupFn, d: Delivery, s: Store, original: ProducerSetup, can: ProducerSetup,
                         encode: (Table, seq<bv8>) -> Result<seq<bv8>, Error>, reply: Option<Error>)
    requires RouteOf(d.headers).Destination?
    requires var r := RouteOf(d.headers); var r1 := lookup(s, r.exchange, r.queue, "", original).0;
             r1.Ok? && r1.value.session.publishingOptions.Some?
    requires var c := XDeathCount(RouteOf(d.headers).xDeath); c.Some? && c.value <= MaxRetries
    ensures var r := RouteOf(d.headers);
            var (r1, s1) := lookup(s, r.exchange, r.queue, "", original);
            var p, c := r1.value, XDeathCount(r.xDeath).value;
            var h := HandleRun(lookup, d, s, original, can, encode, reply);
            h.slept == Some(BackoffSeconds(c)) &&
            h.store == s1.(log := s1.log + [BasicPublish(p.channel, p.session.exchange.name, GetRoutingKey(p),
                                                         p.session.publishingOptions.value.mandatory,
                                                         p.session.publishingOptions.value.immediate,
                                                         Publishing(d.headers, Persistent, d.body))]) &&
            h.outcome == PublishVerdict(RetryFailedMsg(r.exchange, r.queue), reply)
  {
  }

  /**
   * More than five deaths: no sleep; the can producer is looked up under the failure
   * exchange, the can queue and its routing key, and the encoded headers and body are
   * published persistently with the original headers; a publish error comes back wrapped.
   */
  lemma QuarantinePublishes(lookup: LookupFn, d: Delivery, s: Store, original: ProducerSetup, can: ProducerSetup,
                            encode: (Table, seq<bv8>) -> Result<seq<bv8>, Error>, reply: Option<Error>)
    requires RouteOf(d.headers).Destination?
    requires var r := RouteOf(d.headers); lookup(s, r.exchange, r.queue, "", original).0.Ok?
    requires var c := XDeathCount(RouteOf(d.headers).xDeath); c.Some? && c.value > MaxRetries
    ensures var r := RouteOf(d.headers);
            var (r1, s1) := lookup(s, r.exchange, r.queue, "", original);
            var (r2, s2) := lookup(s1, FailedExchange, CanQueue, CanRoutingKey, can);
            var h := HandleRun(lookup, d, s, original, can, encode, reply);
            h.slept == None &&
            (r2.Err? ==> h == Handled(Returned(Some(r2.error)), None, s2)) &&
            (r2.Ok? && encode(d.headers, d.body).Err? ==> h == Handled(Returned(Some(encode(d.headers, d.body).error)), None, s2)) &&
            (r2.Ok? && encode(d.headers, d.body).Ok? && r2.value.session.publishingOptions.Some? ==>
               var p := r2.value;
               h.store == s2.(log := s2.log + [BasicPublish(p.channel, p.session.exchange.name, GetRoutingKey(p),
                                                            p.session.publishingOptions.value.mandatory,
                                                            p.session.publishingOptions.value.immediate,
                                                            Publishing(d.headers, Persistent, encode(d.headers, d.body).value))]) &&
               h.outcome == PublishVerdict(CanPublishFailedMsg, reply))
  {
  }

  /** A malformed x-death header or death record makes the handler panic after the lookup, with nothing published. */
  lemma BadCountPanics(lookup: LookupFn, d: Delivery, s: Store, original: ProducerSetup, can: ProducerSetup,
                       encode: (Table, seq<bv8>) -> Result<seq<bv8>, Error>, reply: Option<Error>)
    requires RouteOf(d.headers).Destination?
    requires var r := RouteOf(d.headers); lookup(s, r.exchange, r.queue, "", original).0.Ok?
    requires XDeathCount(RouteOf(d.headers).xDeath).None?
    ensures var r := RouteOf(d.headers);
            HandleRun(lookup, d, s, original, can, encode, reply) ==
              Handled(Panicked, None, lookup(s, r.exchange, r.queue, "", original).1)
  {
  }
}

/** The record types of the broker layer (rabbitmq/types.go, and the option records beside them). */
module RabbitTypes {
  import opened Wrappers

  /** An AMQP field value, as the client library decodes header tables. */
  datatype FieldValue =
    | FString(s: string)
    | FInt64(i: int)
    | FArray(items: seq<FieldValue>)
    | FTable(t: map<string, FieldValue>)
    | FOther(repr: string)

  /** amqp.Table. */
  type Table = map<string, FieldValue>

  /** Config: the connection profile. */
  datatype Config = Config(host: string, port: int, username: string, password: string, vhost: string)

  datatype Exchange = Exchange(name: string, kind: string, durable: bool, autoDelete: bool, internal: bool, noWait: bool)

  datatype Queue = Queue(name: string, durable: bool, autoDelete: bool, exclusive: bool, noWait: bool, args: Table)

  datatype BindingOptions = BindingOptions(routingKey: string, noWait: bool)

  datatype ConsumerOptions = ConsumerOptions(tag: string, autoAck: bool, ackByError: bool, exclusive: bool, noLocal: bool, noWait: bool)

  datatype PublishingOptions = PublishingOptions(routingKey: string, tag: string, mandatory: bool, immediate: bool)

  /** Session: the settings a producer or consumer was created with; nil option pointers are None. */
  datatype Session = Session(exchange: Exchange, queue: Queue, bindingOptions: BindingOptions,
                             consumerOptions: Option<ConsumerOptions>, publishingOptions: Option<PublishingOptions>)

  /** A consumer's session always carries consumer options. */
  type ConsumerSession = s: Session | s.consumerOptions.Some?
    witness Session(Exchange("", "", false, false, false, false), Queue("", false, false, false, false, map[]),
                    BindingOptions("", false), Some(ConsumerOptions("", false, false, false, false, false)), None)

  /** The delivery modes of amqp.Publishing. */
  const Transient: int := 1
  const Persistent: int := 2

  /** amqp.Publishing: the fields the worker sets. */
  datatype Publishing = Publishing(headers: Table, deliveryMode: int, body: seq<bv8>)

  /** amqp.Delivery: the delivery tag the broker assigned, the headers and the body. */
  datatype Delivery = Delivery(deliveryTag: nat, headers: Table, body: seq<bv8>)

  /** The consume callback a consumer was registered with, identified by name. */
  datatype Handler = Handler(name: string)

  /** ProducerRegisterOptions. */
  datatype ProducerRegisterOptions = ProducerRegisterOptions(exchange: Exchange, queue: Queue, publishingOptions: PublishingOptions)

  /** ConsumerRegisterOptions. */
  datatype ConsumerRegisterOptions = ConsumerRegisterOptions(exchange: Exchange, queue: Queue, bindingOptions: BindingOptions,
                                                             consumerOptions: ConsumerOptions, callFunc: Handler)

  /** The zero values Go gives to fields left out of a struct literal. */
  const NoBinding: BindingOptions := BindingOptions("", false)
}

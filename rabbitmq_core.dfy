/**
 * The connection wrapper (rabbitmq/core.go): dialling, the reconnect loop run when the
 * connection is lost, and how close errors are classified.
 */
module RabbitCore {
  import opened Wrappers
  import opened Errors
  import opened RabbitTypes
  import opened Broker

  const ConfigMissingMsg: string := "[rabbitMQ] config is missing"
  const CloseErrorPrefix: string := "AMQP connection close error: "

  /** How many times the connection and a consumer channel are re-established before giving up. */
  const MaxAttempts: nat := 5

  /**
   * A close error the shutdown helpers let pass: none at all, one that is not an AMQP
   * exception, or an AMQP exception with reply code 504 (channel-error).
   */
  predicate Tolerated(reply: Option<Error>)
    ensures reply.None? ==> Tolerated(reply)
    ensures reply.Some? && reply.value.AmqpError? ==> (Tolerated(reply) <==> reply.value.code == 504)
  {
    reply.None? || !reply.value.AmqpError? || reply.value.code == ChannelError
  }

  /** shutdown's verdict on the answer to Connection.Close. */
  function ConnectionCloseVerdict(reply: Option<Error>): (err: Option<Error>)
    ensures err.None? <==> Tolerated(reply)
    ensures err.Some? ==> err.value == Formatted(CloseErrorPrefix, reply.value) && reply.value.AmqpError?
  {
    if Tolerated(reply) then None else Some(Formatted(CloseErrorPrefix, reply.value))
  }

  /** A close error with reply code 504 is treated as success; every other AMQP code is an error. */
  lemma CloseCodeRule(code: int, reason: string)
    ensures ConnectionCloseVerdict(Some(AmqpError(code, reason))).None? <==> code == 504
  {
  }

  /** A close error that is not an AMQP exception is swallowed. */
  lemma NonAmqpCloseErrorSwallowed(e: Error)
    requires !e.AmqpError?
    ensures ConnectionCloseVerdict(Some(e)) == None
  {
  }

  /** What the broker answers to the two calls of shutdownChannel: Cancel, then Close. */
  datatype ChannelShutdownReplies = ChannelShutdownReplies(cancel: Option<Error>, close: Option<Error>)

  /** The calls shutdownChannel makes: Cancel(tag, noWait = true), then Close unless Cancel failed fatally. */
  function ShutdownChannelCalls(ch: ChannelId, tag: string, replies: ChannelShutdownReplies): (calls: seq<Call>)
    ensures 1 <= |calls| <= 2 && calls[0] == BasicCancel(ch, tag, true)
    ensures |calls| == 2 <==> Tolerated(replies.cancel)
    ensures |calls| == 2 ==> calls[1] == ChannelClose(ch)
  {
    if Tolerated(replies.cancel) then [BasicCancel(ch, tag, true), ChannelClose(ch)] else [BasicCancel(ch, tag, true)]
  }

  /** shutdownChannel's result: a fatal Cancel error, formatted; otherwise Close's error, as it is. */
  function ShutdownChannelVerdict(replies: ChannelShutdownReplies): (err: Option<Error>)
    ensures err.None? <==> Tolerated(replies.cancel) && replies.close.None?
    ensures !Tolerated(replies.cancel) ==> err == Some(Formatted(CloseErrorPrefix, replies.cancel.value))
    ensures Tolerated(replies.cancel) ==> err == replies.close
  {
    if !Tolerated(replies.cancel) then Some(Formatted(CloseErrorPrefix, replies.cancel.value)) else replies.close
  }

  /** shutdownChannel(channel, tag). */
  method ShutdownChannel(broker: Broker, ch: ChannelId, tag: string, replies: ChannelShutdownReplies)
    returns (err: Option<Error>)
    modifies broker
    ensures broker.log == old(broker.log) + ShutdownChannelCalls(ch, tag, replies)
    ensures broker.closed == if Tolerated(replies.cancel) then old(broker.closed) + {ch} else old(broker.closed)
    ensures err == ShutdownChannelVerdict(replies)
  {
    broker.Record(BasicCancel(ch, tag, true));
    if !Tolerated(replies.cancel) {
      return Some(Formatted(CloseErrorPrefix, replies.cancel.value));
    }
    broker.Close(ch);
    return replies.close;
  }

  /** The index of the first attempt that succeeded, if any. */
  function FirstSuccess(replies: seq<Option<Error>>): (i: Option<nat>)
    ensures i.Some? ==> i.value < |replies| && replies[i.value].None? &&
                        forall j :: 0 <= j < i.value ==> replies[j].Some?
    ensures i.None? ==> forall j :: 0 <= j < |replies| ==> replies[j].Some?
  {
    if |replies| == 0 then None
    else if replies[0].None? then Some(0)
    else match FirstSuccess(replies[1..])
      case None => None
      case Some(k) => Some(k + 1)
  }

  /** How the reconnect loop ends: reconnected after some attempts, or the process exits. */
  datatype ReconnectOutcome = Reconnected(attempts: nat) | Fatal

  /** RabbitMQ: the connection wrapper. */
  class RabbitMQ {
    const config: Option<Config>
    const broker: Broker
    /** r.conn is not nil. */
    var connected: bool
    /** A close watcher (handleError) is installed on the connection. */
    var watching: bool
    /** Notifications sent on channelShouldUpdateConn. */
    var updateSignals: nat

    /** NewWrapper(config, logger). */
    constructor NewWrapper(config: Option<Config>, broker: Broker)
      ensures this.config == config && this.broker == broker
      ensures !connected && !watching && updateSignals == 0
    {
      this.config := config;
      this.broker := broker;
      connected := false;
      watching := false;
      updateSignals := 0;
    }

    /**
     * Dial: without a config, an error and no dial. Otherwise r.conn takes the dial's result
     * (nil on failure) and a successful dial installs the close watcher.
     */
    method Dial(reply: Option<Error>) returns (err: Option<Error>)
      modifies this, broker
      ensures config.None? ==> err == Some(Failure(ConfigMissingMsg)) &&
                               unchanged(this) && broker.log == old(broker.log)
      ensures config.Some? ==> broker.log == old(broker.log) + [ConnectionOpen(config.value)] &&
                               err == reply && connected == reply.None? &&
                               watching == (reply.None? || old(watching))
      ensures broker.closed == old(broker.closed) && updateSignals == old(updateSignals)
    {
      if config.None? {
        return Some(Failure(ConfigMissingMsg));
      }
      broker.Record(ConnectionOpen(config.value));
      connected := reply.None?;
      if reply.Some? {
        return reply;
      }
      watching := true;
      return None;
    }

    /**
     * The watcher's reaction to a lost connection: up to five dials; the first that succeeds
     * sends one update notification and ends the loop, and a fifth failure is fatal.
     * `replies[i]` is what the (i+1)-th dial gets.
     */
    method Reconnect(replies: seq<Option<Error>>) returns (outcome: ReconnectOutcome)
      requires |replies| == MaxAttempts
      modifies this, broker
      ensures config.Some? && FirstSuccess(replies).Some? ==>
        var n := FirstSuccess(replies).value + 1;
        outcome == Reconnected(n) && updateSignals == old(updateSignals) + 1 && connected && watching &&
        broker.log == old(broker.log) + seq(n, _ => ConnectionOpen(config.value))
      ensures config.Some? && FirstSuccess(replies).None? ==>
        outcome == Fatal && updateSignals == old(updateSignals) && !connected &&
        broker.log == old(broker.log) + seq(MaxAttempts, _ => ConnectionOpen(config.value))
      ensures config.None? ==> outcome == Fatal && broker.log == old(broker.log) && updateSignals == old(updateSignals)
      ensures broker.closed == old(broker.closed)
    {
      var i := 0;
      while i < MaxAttempts
        invariant 0 <= i <= MaxAttempts
        invariant config.Some? ==> forall j :: 0 <= j < i ==> replies[j].Some?
        invariant config.Some? ==> broker.log == old(broker.log) + seq(i, _ => ConnectionOpen(config.value))
        invariant config.Some? && i > 0 ==> !connected
        invariant config.None? ==> broker.log == old(broker.log) && connected == old(connected)
        invariant updateSignals == old(updateSignals) && broker.closed == old(broker.closed)
      {
        ghost var before := broker.log;
        var e := Dial(replies[i]);
        if config.Some? {
          assert broker.log == before + [ConnectionOpen(config.value)];
          assert seq(i + 1, _ => ConnectionOpen(config.value)) == seq(i, _ => ConnectionOpen(config.value)) + [ConnectionOpen(config.value)];
        }
        if e.None? {
          updateSignals := updateSignals + 1;
          FirstSuccessAt(replies, i);
          return Reconnected(i + 1);
        }
        i := i + 1;
      }
      return Fatal;
    }

    /**
     * Shutdown: closes the connection and classifies the close error. Without a connection (never
     * dialled, or the last dial failed and left it nil) Close is called on nil and panics:
     * nothing reaches the broker and nothing is returned.
     */
    method Shutdown(reply: Option<Error>) returns (err: Option<Error>, panicked: bool)
      modifies broker
      ensures panicked == !connected && broker.closed == old(broker.closed)
      ensures connected ==> broker.log == old(broker.log) + [ConnectionClose] && err == ConnectionCloseVerdict(reply)
      ensures !connected ==> broker.log == old(broker.log) && err.None?
    {
      if !connected {
        return None, true;
      }
      broker.Record(ConnectionClose);
      return ConnectionCloseVerdict(reply), false;
    }
  }

  /** When attempt i is the first to succeed, FirstSuccess finds it. */
  lemma {:induction false} FirstSuccessAt(replies: seq<Option<Error>>, i: nat)
    requires i < |replies| && replies[i].None?
    requires forall j :: 0 <= j < i ==> replies[j].Some?
    ensures FirstSuccess(replies) == Some(i)
  {
    if i > 0 {
      FirstSuccessAt(replies[1..], i - 1);
    }
  }
}

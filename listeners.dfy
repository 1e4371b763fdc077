/**
 * django_outbox_pattern/listeners.py: the broker callbacks of a producer or
 * consumer. Connection events only log; a disconnect restarts the
 * instance; a consumer hands on the messages of its own subscription.
 */
module Listeners {
  import opened Wrappers
  import opened Values
  import opened Dicts
  import opened Headers
  import opened Models
  import opened Store
  import opened World
  import opened Bases
  import opened Producers
  import opened Payloads
  import opened Consumers

  /** Python's `a in b` on strings: `a` occurs in `b` as a contiguous piece. */
  function Occurs(a: string, b: string): bool
    decreases |b|
  {
    |a| <= |b| && (b[..|a|] == a || (b != [] && Occurs(a, b[1..])))
  }

  /** `a` sits in `b` at position `i`. */
  predicate At(a: string, b: string, i: int) {
    0 <= i && i + |a| <= |b| && b[i..i + |a|] == a
  }

  lemma {:induction false} OccursMeaning(a: string, b: string)
    ensures Occurs(a, b) <==> exists i :: At(a, b, i)
    decreases |b|
  {
    if |a| <= |b| && b != [] {
      OccursMeaning(a, b[1..]);
      if Occurs(a, b[1..]) {
        var i :| At(a, b[1..], i);
        assert b[1..][i..i + |a|] == b[i + 1..i + 1 + |a|];
        assert At(a, b, i + 1);
      }
      if b[..|a|] == a {
        assert b[0..|a|] == b[..|a|];
        assert At(a, b, 0);
      }
      if exists i :: At(a, b, i) {
        var i :| At(a, b, i);
        if i > 0 {
          assert b[1..][i - 1..i - 1 + |a|] == b[i..i + |a|];
          assert At(a, b[1..], i - 1);
        } else {
          assert b[..|a|] == a;
        }
      }
    } else if |a| <= |b| {
      assert b[..|a|] == a <==> At(a, b, 0);
      assert forall i :: At(a, b, i) ==> i == 0;
    }
  }

  /**
   * The guard of `on_message`: `subscribe_id in headers["subscription"]`. A
   * missing header raises `KeyError`; a `None` id, or a header that is not a
   * string, raises `TypeError`.
   */
  function Guard(subscribeId: Option<string>, headers: Headers): Result<bool, PyError> {
    match Get(headers, "subscription")
    case None => Err(KeyError)
    case Some(v) =>
      if subscribeId.None? || !v.HStr? then Err(TypeError)
      else Ok(Occurs(subscribeId.value, v.s))
  }

  /** A frame passes the guard exactly when its subscription header is a string containing the current id. */
  lemma GuardMeaning(subscribeId: Option<string>, headers: Headers)
    ensures Guard(subscribeId, headers) == Ok(true) <==>
      subscribeId.Some? && HasKey(headers, "subscription") && Get(headers, "subscription").value.HStr? &&
      exists i :: At(subscribeId.value, Get(headers, "subscription").value.s, i)
    ensures Guard(subscribeId, headers).Err? <==>
      !HasKey(headers, "subscription") || subscribeId.None? || !Get(headers, "subscription").value.HStr?
  {
    var g := Get(headers, "subscription");
    if g.Some? && subscribeId.Some? && g.value.HStr? {
      assert Guard(subscribeId, headers) == Ok(Occurs(subscribeId.value, g.value.s));
      OccursMeaning(subscribeId.value, g.value.s);
    }
  }

  /** A subscription id that is a request's own subscription header always passes. */
  lemma OwnSubscriptionPasses(id: string, headers: Headers)
    requires Get(headers, "subscription") == Some(HStr(id))
    ensures Guard(Some(id), headers) == Ok(true)
  {
    assert id[..|id|] == id;
  }

  /** The handlers every listener has: they only log. */
  class BaseListener {
    const env: Env

    constructor(env: Env)
      ensures this.env == env
    {
      this.env := env;
    }

    /** `on_connecting`. */
    method OnConnecting()
      modifies env
      ensures env.Appended(Log(Debug, Connecting))
    {
      env.Emit(Log(Debug, Connecting));
    }

    /** `on_connected`. */
    method OnConnected()
      modifies env
      ensures env.Appended(Log(Debug, Connected))
    {
      env.Emit(Log(Debug, Connected));
    }

    /** `on_error`. */
    method OnError()
      modifies env
      ensures env.Appended(Log(Debug, BrokerError))
    {
      env.Emit(Log(Debug, BrokerError));
    }
  }

  function DeliveryLogs(messageId: HVal): seq<Event> {
    [Log(Info, MessageIdReceived(messageId)), Log(Debug, MessageBodyReceived), Log(Debug, MessageHeadersReceived)]
  }

  /** What the consumer's listener did with a frame. */
  datatype Delivery = Ignored | Dispatched(outcome: Outcome)

  class ConsumerListener {
    const common: BaseListener
    const consumer: Consumer

    constructor(consumer: Consumer)
      ensures this.consumer == consumer && common.env == consumer.base.env
    {
      this.consumer := consumer;
      common := new BaseListener(consumer.base.env);
    }

    /** `on_disconnected`: log, then `start` again with the stored callback, destination and queue name. */
    method OnDisconnected() returns (ok: bool)
      modifies consumer, consumer.base, consumer.base.env
      ensures ok <==> old(consumer.destination).Some?
      ensures consumer.base.env.connected
      ensures consumer.callback == old(consumer.callback) && consumer.destination == old(consumer.destination)
      ensures consumer.queueName == old(consumer.queueName)
      ensures ok ==>
        var t := old(consumer.base.env.trace) + [Log(Debug, ConsumerDisconnected)];
        var connectPart := if old(consumer.base.env.connected) then [] else
          ConnectEvents(old(consumer.base.env.connectScript), old(consumer.base.attempts), old(consumer.base.env.draws),
                        consumer.base.env.uniform, consumer.base.maximumBackoff);
        consumer.subscribeId == Some(StartId(old(consumer.subscribeId), old(consumer.base.env.uuids), consumer.base.env.uuid)) &&
        consumer.base.env.trace == t + connectPart +
          StartEvents(old(consumer.destination).value, old(consumer.queueName), old(consumer.subscribeId),
                      old(consumer.base.env.uuids), consumer.base.env.uuid, old(consumer.subscribeHeaders),
                      consumer.tuning.exclusiveQueue)
      ensures consumer.base.env.cache == old(consumer.base.env.cache)
    {
      consumer.base.env.Emit(Log(Debug, ConsumerDisconnected));
      ok := consumer.Start(consumer.callback, consumer.destination, consumer.queueName);
    }

    /** The three records `on_message` logs before dispatching. */
    method LogDelivery(messageId: HVal)
      modifies consumer.base.env
      ensures consumer.base.env.trace == old(consumer.base.env.trace) + DeliveryLogs(messageId)
      ensures consumer.base.env.OnlyTrace()
    {
      consumer.base.env.Emit(Log(Info, MessageIdReceived(messageId)));
      consumer.base.env.Emit(Log(Debug, MessageBodyReceived));
      consumer.base.env.Emit(Log(Debug, MessageHeadersReceived));
    }

    /**
     * `on_message`: a frame whose subscription header contains the current
     * subscription id is logged and handed to the consumer's message
     * handler; any other frame changes nothing. The guard's errors, and a
     * missing `message-id` header, raise before anything happens.
     */
    method OnMessage(body: Wire, headers: Headers, rowId: string, now: Time) returns (r: Result<Delivery, PyError>)
      requires consumer.db.Valid()
      modifies consumer.db, consumer.base.env
      ensures consumer.db.Valid()
      ensures Guard(old(consumer.subscribeId), headers).Err? ==> r == Err(Guard(old(consumer.subscribeId), headers).error)
      ensures Guard(old(consumer.subscribeId), headers) == Ok(false) ==> r == Ok(Ignored)
      ensures Guard(old(consumer.subscribeId), headers) == Ok(true) && MessageId(headers).None? ==> r == Err(KeyError)
      ensures !r.Ok? || r.value.Ignored? ==>
        consumer.base.env.trace == old(consumer.base.env.trace) && consumer.base.env.cache == old(consumer.base.env.cache) &&
        consumer.db.received == old(consumer.db.received)
      ensures Guard(old(consumer.subscribeId), headers) == Ok(true) && MessageId(headers).Some? ==>
        r.Ok? && r.value.Dispatched? &&
        HandlerSpec(consumer.callback, consumer.tuning.daysToKeepData, body, headers, rowId, now, old(consumer.db.up),
                    old(consumer.base.env.cache), old(consumer.db.received),
                    old(consumer.base.env.trace) + DeliveryLogs(MessageId(headers).value),
                    r.value.outcome, consumer.base.env.cache, consumer.db.received, consumer.base.env.trace)
      ensures consumer.db.published == old(consumer.db.published)
    {
      var guard := Guard(consumer.subscribeId, headers);
      if guard.Err? {
        return Err(guard.error);
      }
      if !guard.value {
        return Ok(Ignored);
      }
      var messageId := MessageId(headers);
      if messageId.None? {
        return Err(KeyError);
      }
      LogDelivery(messageId.value);
      var outcome := consumer.MessageHandler(body, headers, rowId, now);
      r := Ok(Dispatched(outcome));
    }
  }

  class ProducerListener {
    const common: BaseListener
    const producer: Producer

    constructor(producer: Producer)
      ensures this.producer == producer && common.env == producer.base.env
    {
      this.producer := producer;
      common := new BaseListener(producer.base.env);
    }

    /** `on_disconnected`: log, then `start` again. */
    method OnDisconnected()
      modifies producer.base, producer.base.env
      ensures producer.base.env.connected
      ensures var t := old(producer.base.env.trace) + [Log(Debug, ProducerDisconnected)];
        producer.base.env.trace == t + if old(producer.base.env.connected) then [] else
          ConnectEvents(old(producer.base.env.connectScript), old(producer.base.attempts), old(producer.base.env.draws),
                        producer.base.env.uniform, producer.base.maximumBackoff)
      ensures producer.base.env.sendScript == old(producer.base.env.sendScript)
      ensures producer.base.env.cache == old(producer.base.env.cache)
    {
      producer.base.env.Emit(Log(Debug, ProducerDisconnected));
      producer.Start();
    }

    /** `on_send`: a SEND frame is logged twice; any other command is not. Nothing else changes. */
    method OnSend(command: string)
      modifies producer.base.env
      ensures command == "SEND" ==>
        producer.base.env.trace == old(producer.base.env.trace) + [Log(Debug, MessageBodySent), Log(Debug, MessageHeadersSent)]
      ensures command != "SEND" ==> producer.base.env.trace == old(producer.base.env.trace)
      ensures producer.base.env.OnlyTrace()
    {
      if command == "SEND" {
        producer.base.env.Emit(Log(Debug, MessageBodySent));
        producer.base.env.Emit(Log(Debug, MessageHeadersSent));
      }
    }
  }
}

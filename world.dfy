/**
 * Everything outside the library that it talks to, as one object: the STOMP
 * connection, `time.sleep`, the logger, Django's cache, the connection pool
 * and the sources of randomness and uuids. Every outward call is appended,
 * in order, to one trace of events; the broker's answers are given in
 * advance as scripts.
 */
module World {
  import opened Wrappers
  import opened Values
  import opened Headers

  datatype Level = Debug | Info | Warning | Error

  /** What a log record reports; its wording is not modelled. */
  datatype Topic =
    // bases.py
    | WaitingToReconnect(seconds: real)
    // producers.py
    | DisconnectFailed
    | NoObjectsToPublish
    | MessageToPublish(body: Json)
    | SendAttemptsExceeded
    | MessageNotPublished(id: string)
    | MessagePublished(id: string)
    | StartingPublisher
    // consumers.py
    | BodyNotJson(text: string)
    | DuplicateDiscarded(msgId: Option<HVal>)
    | NoAckNoNack(msgId: Option<HVal>)
    | CallbackFailed
    | ConsumerStarted(subscribeId: Option<string>)
    | ConsumerNotStarted
    | QueueCreated(queue: string, id: string)
    | SubscriptionCanceled(subscription: Option<string>)
    // listeners.py
    | Connecting
    | Connected
    | BrokerError
    | ConsumerDisconnected
    | ProducerDisconnected
    | MessageIdReceived(messageId: HVal)
    | MessageBodyReceived
    | MessageHeadersReceived
    | MessageBodySent
    | MessageHeadersSent
    // management/commands/purge.py
    | PurgeStarted
    | PurgeOptions(days: int, dryRun: bool, receivedOnly: bool, publishedOnly: bool, includeScheduled: bool, batchSize: int)
    | OnlyFlagsConflict
    | PurgingTable(model: string, days: int)
    | DryRunWouldDelete(total: nat, model: string)
    | BatchDeleted(deleted: nat, total: nat, model: string)
    | DeletedTotalOf(total: nat, model: string)
    | DeletedCount(total: nat, model: string)
    | PurgeDone

  /** A SEND frame as the producer hands it to `connection.send`. */
  datatype Frame = Frame(body: Wire, destination: string, headers: Option<Headers>)

  datatype Event =
    | ConnectCall(refused: bool)
    | DisconnectCall
    | SendCall(frame: Frame, refused: bool)
    | SubscribeCall(destination: string, id: string, ack: string, headers: Headers)
    | UnsubscribeCall(subscription: Option<string>)
    | AckCall(messageId: Option<HVal>)
    | NackCall(messageId: Option<HVal>, requeue: bool)
    | ListenerSet(name: string)
    | ListenerRemoved(name: string)
    | Sleep(seconds: real)
    | Log(level: Level, topic: Topic)
    | DbConnectionsClosed

  /** The two cache keys the retention sweeps are gated by. */
  datatype CacheKey = PublisherKey | ConsumerKey

  /** Python errors the guards in the listeners can raise. */
  datatype PyError = KeyError | TypeError | AttributeError

  /** The script after the broker answered one call. */
  function Tail(s: seq<bool>): seq<bool> {
    if s == [] then [] else s[1..]
  }

  /** How many calls in a row the broker refuses, from the start of a script. */
  function Leading(s: seq<bool>): (r: nat)
    ensures r <= |s|
    ensures forall i :: 0 <= i < r ==> s[i]
    ensures r < |s| ==> !s[r]
  {
    if s != [] && s[0] then 1 + Leading(s[1..]) else 0
  }

  /** A refused prefix of length `k` followed by an accepted call determines `Leading`. */
  lemma LeadingExact(s: seq<bool>, k: nat)
    requires k <= |s| && (forall i :: 0 <= i < k ==> s[i])
    requires k == |s| || !s[k]
    ensures Leading(s) == k
  {
  }

  lemma {:induction false} LeadingAtLeast(s: seq<bool>, k: nat)
    requires k <= |s| && (forall i :: 0 <= i < k ==> s[i])
    ensures Leading(s) >= k
  {
    if k > 0 {
      LeadingAtLeast(s[1..], k - 1);
    }
  }

  /** The number of broker acknowledgements (ACK or NACK frames) in a trace. */
  function Replies(t: seq<Event>): nat {
    if t == [] then 0 else (if t[0].AckCall? || t[0].NackCall? then 1 else 0) + Replies(t[1..])
  }

  /** The number of SEND frames in a trace. */
  function Sends(t: seq<Event>): nat {
    if t == [] then 0 else (if t[0].SendCall? then 1 else 0) + Sends(t[1..])
  }

  /** The durations slept, in order. */
  function Sleeps(t: seq<Event>): seq<real> {
    if t == [] then [] else (if t[0].Sleep? then [t[0].seconds] else []) + Sleeps(t[1..])
  }

  lemma {:induction false} CountsAppend(a: seq<Event>, b: seq<Event>)
    ensures Replies(a + b) == Replies(a) + Replies(b)
    ensures Sends(a + b) == Sends(a) + Sends(b)
    ensures Sleeps(a + b) == Sleeps(a) + Sleeps(b)
  {
    if a != [] {
      assert (a + b)[0] == a[0] && (a + b)[1..] == a[1..] + b;
      CountsAppend(a[1..], b);
    } else {
      assert a + b == b;
    }
  }

  /** Appending three pieces one after another is appending their concatenation. */
  lemma Regroup(t: seq<Event>, a: seq<Event>, b: seq<Event>, c: seq<Event>)
    ensures t + a + b + c == t + (a + b + c)
  {
  }

  lemma CountsOne(e: Event)
    ensures Replies([e]) == (if e.AckCall? || e.NackCall? then 1 else 0)
    ensures Sends([e]) == (if e.SendCall? then 1 else 0)
    ensures Sleeps([e]) == (if e.Sleep? then [e.seconds] else [])
  {
    assert [e][1..] == [];
  }

  class Env {
    var trace: seq<Event>
    /** `connection.is_connected()`. */
    var connected: bool
    /** The broker's answers to the coming `connect` calls: true means `StompException`. */
    var connectScript: seq<bool>
    /** The broker's answers to the coming `send` calls: true means `StompException`. */
    var sendScript: seq<bool>
    /** The cache keys that are set. */
    var cache: set<CacheKey>
    /** `random.uniform(0, 1)` returns `uniform(draws)` and advances `draws`. */
    var draws: nat
    const uniform: nat -> real
    /** `get_uuid()` returns `uuid(uuids)` and advances `uuids`. */
    var uuids: nat
    const uuid: nat -> string

    constructor(connectScript: seq<bool>, sendScript: seq<bool>, uniform: nat -> real, uuid: nat -> string)
      ensures trace == [] && !connected && cache == {} && draws == 0 && uuids == 0
      ensures this.connectScript == connectScript && this.sendScript == sendScript
      ensures this.uniform == uniform && this.uuid == uuid
    {
      trace := [];
      connected := false;
      this.connectScript := connectScript;
      this.sendScript := sendScript;
      cache := {};
      draws := 0;
      this.uniform := uniform;
      uuids := 0;
      this.uuid := uuid;
    }

    /** Nothing but the trace changed. */
    twostate predicate OnlyTrace()
      reads this
    {
      connected == old(connected) && connectScript == old(connectScript) &&
      sendScript == old(sendScript) && cache == old(cache) &&
      draws == old(draws) && uuids == old(uuids)
    }

    /** Besides the trace, at most the uuid counter moved. */
    twostate predicate OnlyTraceAndUuids()
      reads this
    {
      connected == old(connected) && connectScript == old(connectScript) &&
      sendScript == old(sendScript) && cache == old(cache) && draws == old(draws)
    }

    /** One event was appended and nothing else changed. */
    twostate predicate Appended(e: Event)
      reads this
    {
      trace == old(trace) + [e] && OnlyTrace()
    }

    /** `connection.connect(..., wait=True)`: the broker answers as its script says; success connects. */
    method Connect() returns (refused: bool)
      modifies this
      ensures refused == (old(connectScript) != [] && old(connectScript)[0])
      ensures connectScript == Tail(old(connectScript))
      ensures connected == (old(connected) || !refused)
      ensures trace == old(trace) + [ConnectCall(refused)]
      ensures sendScript == old(sendScript) && cache == old(cache)
      ensures draws == old(draws) && uuids == old(uuids)
    {
      refused := connectScript != [] && connectScript[0];
      connectScript := Tail(connectScript);
      connected := connected || !refused;
      trace := trace + [ConnectCall(refused)];
    }

    /** `connection.disconnect()`. */
    method Disconnect()
      modifies this
      ensures !connected
      ensures trace == old(trace) + [DisconnectCall]
      ensures connectScript == old(connectScript) && sendScript == old(sendScript)
      ensures cache == old(cache) && draws == old(draws) && uuids == old(uuids)
    {
      connected := false;
      trace := trace + [DisconnectCall];
    }

    /** `connection.send(...)`: refused when the script says so. */
    method Send(frame: Frame) returns (refused: bool)
      modifies this
      ensures refused == (old(sendScript) != [] && old(sendScript)[0])
      ensures sendScript == Tail(old(sendScript))
      ensures trace == old(trace) + [SendCall(frame, refused)]
      ensures connected == old(connected) && connectScript == old(connectScript)
      ensures cache == old(cache) && draws == old(draws) && uuids == old(uuids)
    {
      refused := sendScript != [] && sendScript[0];
      sendScript := Tail(sendScript);
      trace := trace + [SendCall(frame, refused)];
    }

    /** Appends an event that changes nothing else: a subscribe, ack, sleep, log record and the like. */
    method Emit(e: Event)
      modifies this
      ensures Appended(e)
    {
      trace := trace + [e];
    }

    /** `cache.set(key, True, ttl)`. */
    method CacheSet(key: CacheKey)
      modifies this
      ensures cache == old(cache) + {key}
      ensures trace == old(trace) && connected == old(connected)
      ensures connectScript == old(connectScript) && sendScript == old(sendScript)
      ensures draws == old(draws) && uuids == old(uuids)
    {
      cache := cache + {key};
    }

    /** `random.uniform(0, 1)`. */
    method Uniform() returns (x: real)
      modifies this
      ensures x == uniform(old(draws)) && draws == old(draws) + 1
      ensures trace == old(trace) && connected == old(connected) && cache == old(cache)
      ensures connectScript == old(connectScript) && sendScript == old(sendScript)
      ensures uuids == old(uuids)
    {
      x := uniform(draws);
      draws := draws + 1;
    }

    /** `get_uuid()`. */
    method NewUuid() returns (u: string)
      modifies this
      ensures u == uuid(old(uuids)) && uuids == old(uuids) + 1
      ensures trace == old(trace) && connected == old(connected) && cache == old(cache)
      ensures connectScript == old(connectScript) && sendScript == old(sendScript)
      ensures draws == old(draws)
    {
      u := uuid(uuids);
      uuids := uuids + 1;
    }
  }
}

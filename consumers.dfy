/**
 * django_outbox_pattern/consumers.py: idempotent consumption of broker
 * messages into the inbox, and the subscription lifecycle of a consumer.
 */
module Consumers {
  import opened Wrappers
  import opened Values
  import opened Dicts
  import opened Headers
  import opened Models
  import opened Tables
  import opened Store
  import opened World
  import opened Bases
  import opened Payloads

  predicate EndsWithId(k: string) {
    |k| >= 3 && k[|k| - 3..] == "-id"
  }

  /** The value of the last header, in iteration order, whose key ends in `-id`. */
  function LastId(h: Headers): Option<HVal> {
    if h == [] then None
    else if EndsWithId(h[|h| - 1].0) then Some(h[|h| - 1].1)
    else LastId(h[..|h| - 1])
  }

  /** `LastId` finds nothing exactly when no key ends in `-id`, and otherwise the value of the last such key. */
  lemma {:induction false} LastIdMeaning(h: Headers)
    ensures LastId(h).None? <==> forall i :: 0 <= i < |h| ==> !EndsWithId(h[i].0)
    ensures LastId(h).Some? ==>
      exists i :: 0 <= i < |h| && EndsWithId(h[i].0) && h[i].1 == LastId(h).value &&
                  forall j :: i < j < |h| ==> !EndsWithId(h[j].0)
  {
    if h != [] && !EndsWithId(h[|h| - 1].0) {
      var init := h[..|h| - 1];
      LastIdMeaning(init);
      assert forall i :: 0 <= i < |init| ==> init[i] == h[i];
      if LastId(h).Some? {
        var i :| 0 <= i < |init| && EndsWithId(init[i].0) && init[i].1 == LastId(init).value &&
                 forall j :: i < j < |init| ==> !EndsWithId(init[j].0);
        assert forall j :: i < j < |h| ==> !EndsWithId(h[j].0);
      }
    }
  }

  /** `_get_msg_id`: the deduplication key of a message. */
  method GetMsgId(headers: Headers) returns (ret: Option<HVal>)
    ensures ret == LastId(headers)
  {
    ret := None;
    var i := 0;
    while i < |headers|
      invariant 0 <= i <= |headers|
      invariant ret == LastId(headers[..i])
    {
      assert headers[..i + 1][..i] == headers[..i];
      if EndsWithId(headers[i].0) {
        ret := Some(headers[i].1);
      }
      i := i + 1;
    }
    assert headers[..|headers|] == headers;
  }

  /** The broker's acknowledgement id and the deduplication key are different headers and can differ. */
  lemma AckIdIsNotDedupKey()
    ensures var h := [("message-id", HStr("T-1")), ("dop-msg-id", HStr("abc"))];
      MessageId(h) == Some(HStr("T-1")) && LastId(h) == Some(HStr("abc"))
  {
    var h := [("message-id", HStr("T-1")), ("dop-msg-id", HStr("abc"))];
    assert h[..1] == [("message-id", HStr("T-1"))];
    assert EndsWithId(h[1].0) by {
      assert h[1].0[|h[1].0| - 3..] == "-id";
    }
  }

  /** What a callback does with its payload: the calls it makes, whether it raises, and whether it runs in its own `transaction.atomic`. */
  datatype Step = SaveStep | AckStep | NackStep
  datatype Callback = Callback(steps: seq<Step>, raises: bool, atomic: bool)

  /** `lambda p: p`, the callback a new consumer holds. */
  const Identity: Callback := Callback([], false, false)

  /** The first `ack` or `nack` among the steps, which is the only one the broker hears. */
  function FirstAnswer(steps: seq<Step>): Option<Step> {
    if steps == [] then None
    else if FirstAnswer(steps[..|steps| - 1]).Some? then FirstAnswer(steps[..|steps| - 1])
    else if steps[|steps| - 1] == SaveStep then None
    else Some(steps[|steps| - 1])
  }

  /** The broker frame for an answer. */
  function AnswerEvents(a: Option<Step>, h: Headers): seq<Event> {
    match a
    case Some(AckStep) => [AckCall(MessageId(h))]
    case Some(NackStep) => [NackCall(MessageId(h), false)]
    case _ => []
  }

  /** The body the handler works with: the decoded document, or the raw text when it is not JSON. */
  function Decoded(body: Wire): Json {
    match Loads(body)
    case Ok(v) => v
    case Err(text) => JStr(text)
  }

  function DecodeEvents(body: Wire): seq<Event> {
    match Loads(body)
    case Ok(_) => []
    case Err(text) => [Log(Error, BodyNotJson(text))]
  }

  /** The inbox after the consumer's sweep. */
  function SweptReceived(rows: seq<Received>, cache: set<CacheKey>, cutoff: Time): seq<Received> {
    if ConsumerKey in cache then rows else Kept(rows, ReceivedRow, AddedBefore(cutoff))
  }

  /** How `message_handler` ended: the inbox query failed, the message was a duplicate, or the callback ran. */
  datatype Outcome = DatabaseDown | Duplicate | Handled(raised: bool, saved: bool, acked: bool, nacked: bool)

  /** The first `ack` or `nack` is the callback's own first answer, preceded only by saves. */
  lemma {:induction false} FirstAnswerMeaning(steps: seq<Step>)
    ensures FirstAnswer(steps).None? <==> forall i :: 0 <= i < |steps| ==> steps[i] == SaveStep
    ensures FirstAnswer(steps).Some? ==>
      exists i :: 0 <= i < |steps| && steps[i] == FirstAnswer(steps).value && steps[i] != SaveStep &&
                  forall j :: 0 <= j < i ==> steps[j] == SaveStep
  {
    if steps != [] {
      var init := steps[..|steps| - 1];
      FirstAnswerMeaning(init);
      assert forall i :: 0 <= i < |init| ==> init[i] == steps[i];
      if FirstAnswer(init).Some? {
        var i :| 0 <= i < |init| && init[i] == FirstAnswer(init).value && init[i] != SaveStep &&
                 forall j :: 0 <= j < i ==> init[j] == SaveStep;
        assert steps[i] == FirstAnswer(steps).value;
      } else if steps[|steps| - 1] != SaveStep {
        assert FirstAnswer(steps) == Some(steps[|steps| - 1]);
      }
    }
  }

  /** The answer the broker finally hears for a handled message, if any. */
  function Settlement(cb: Callback): Option<Step> {
    var a := FirstAnswer(cb.steps);
    if a.Some? then a
    else if cb.raises then Some(NackStep)
    else if SaveStep in cb.steps then Some(AckStep)
    else None
  }

  /** What `message_handler` does after the callback returns or raises. */
  function AfterCallbackEvents(cb: Callback, h: Headers, msgId: Option<HVal>): seq<Event> {
    var a := FirstAnswer(cb.steps);
    if cb.raises then [Log(Error, CallbackFailed)] + (if a.None? then AnswerEvents(Some(NackStep), h) else [])
    else if SaveStep in cb.steps then (if a.None? then AnswerEvents(Some(AckStep), h) else [])
    else [Log(Warning, NoAckNoNack(msgId))]
  }

  /** The events of a handled message, from the callback to the closing of connections. */
  function HandledEvents(cb: Callback, h: Headers, msgId: Option<HVal>): seq<Event> {
    AnswerEvents(FirstAnswer(cb.steps), h) + AfterCallbackEvents(cb, h, msgId) + [DbConnectionsClosed]
  }

  /** One more step changes the first answer only while there is none yet, and only by an answer. */
  lemma FirstAnswerSnoc(steps: seq<Step>, s: Step)
    ensures FirstAnswer(steps + [s]) ==
            if FirstAnswer(steps).Some? then FirstAnswer(steps) else if s == SaveStep then None else Some(s)
  {
    assert (steps + [s])[..|steps|] == steps;
  }

  /** A callback's first answer is never a save. */
  lemma {:induction false} FirstAnswerNotSave(steps: seq<Step>)
    ensures FirstAnswer(steps) != Some(SaveStep)
  {
    if steps != [] {
      FirstAnswerNotSave(steps[..|steps| - 1]);
    }
  }

  /** A callback's first answer is an ack, a nack, or none. */
  lemma FirstAnswerCases(steps: seq<Step>)
    ensures FirstAnswer(steps) in {None, Some(AckStep), Some(NackStep)}
  {
    FirstAnswerNotSave(steps);
    var a := FirstAnswer(steps);
    if a.Some? {
      match a.value
      case SaveStep =>
      case AckStep =>
      case NackStep =>
    }
  }

  lemma AnswerCounts(a: Option<Step>, h: Headers)
    ensures Replies(AnswerEvents(a, h)) == (if a.Some? && a.value != SaveStep then 1 else 0)
    ensures Sends(AnswerEvents(a, h)) == 0
  {
    CountsOne(AckCall(MessageId(h)));
    CountsOne(NackCall(MessageId(h), false));
  }

  lemma AfterCallbackCounts(cb: Callback, h: Headers, msgId: Option<HVal>)
    ensures Replies(AfterCallbackEvents(cb, h, msgId)) ==
            (if FirstAnswer(cb.steps).None? && (cb.raises || SaveStep in cb.steps) then 1 else 0)
    ensures Sends(AfterCallbackEvents(cb, h, msgId)) == 0
  {
    AnswerCounts(Some(NackStep), h);
    AnswerCounts(Some(AckStep), h);
    CountsOne(Log(Error, CallbackFailed));
    CountsOne(Log(Warning, NoAckNoNack(msgId)));
    if cb.raises {
      CountsAppend([Log(Error, CallbackFailed)], if FirstAnswer(cb.steps).None? then AnswerEvents(Some(NackStep), h) else []);
    }
  }

  /**
   * A handled message is answered exactly once when the callback answered,
   * saved or raised, and otherwise not at all; an unanswered message is
   * always warned about.
   */
  lemma HandledAnswersOnce(cb: Callback, h: Headers, msgId: Option<HVal>)
    ensures var t := HandledEvents(cb, h, msgId);
      Replies(t) == (if Settlement(cb).Some? then 1 else 0) &&
      Sends(t) == 0 &&
      (Settlement(cb).None? ==> Log(Warning, NoAckNoNack(msgId)) in t) &&
      (Settlement(cb) == Some(AckStep) ==> AckCall(MessageId(h)) in t) &&
      (Settlement(cb) == Some(NackStep) ==> NackCall(MessageId(h), false) in t)
  {
    var a := AnswerEvents(FirstAnswer(cb.steps), h);
    var b := AfterCallbackEvents(cb, h, msgId);
    FirstAnswerNotSave(cb.steps);
    AnswerCounts(FirstAnswer(cb.steps), h);
    AfterCallbackCounts(cb, h, msgId);
    CountsAppend(a, b);
    CountsAppend(a + b, [DbConnectionsClosed]);
    CountsOne(DbConnectionsClosed);
  }

  /**
   * The warning fires whenever the callback did not save, even when it
   * answered the broker itself: the guard `not saved or not nacked` is
   * reached only when `saved` is false.
   */
  lemma WarnsDespiteAnswer(h: Headers, msgId: Option<HVal>)
    ensures var cb := Callback([AckStep], false, false);
      Settlement(cb) == Some(AckStep) && Log(Warning, NoAckNoNack(msgId)) in HandledEvents(cb, h, msgId)
  {
    var cb := Callback([AckStep], false, false);
    assert cb.steps[..0] == [];
    assert HandledEvents(cb, h, msgId) == [AckCall(MessageId(h)), Log(Warning, NoAckNoNack(msgId)), DbConnectionsClosed];
  }

  /** The inbox after a handled message's callback, before the sweep. */
  function InboxAfterCallback(rows: seq<Received>, cb: Callback, r: Received): seq<Received> {
    if (cb.raises && cb.atomic) || SaveStep !in cb.steps then rows else Upsert(rows, ReceivedRow, r)
  }

  /**
   * What one `message_handler` call does, given the database state, cache
   * and trace it starts from (`up`, `cache`, `rows`, `trace`) and the ones it
   * leaves (`cache'`, `rows'`, `trace'`): a failing inbox query raises; a
   * message whose deduplication key is taken is acknowledged and nothing is
   * stored or swept; otherwise the callback's effect is kept, rolled back or
   * answered for, then the inbox is swept.
   */
  predicate HandlerSpec(cb: Callback, days: int, body: Wire, headers: Headers, rowId: string, now: Time,
                        up: bool, cache: set<CacheKey>, rows: seq<Received>, trace: seq<Event>,
                        r: Outcome, cache': set<CacheKey>, rows': seq<Received>, trace': seq<Event>)
  {
    var key := LastId(headers);
    var row := NewReceived(rowId, Decoded(body), headers, key, now);
    if !up then
      r == DatabaseDown && cache' == cache && rows' == rows && trace' == trace + DecodeEvents(body)
    else if MsgIdTaken(rows, key) then
      r == Duplicate && cache' == cache && rows' == rows &&
      trace' == trace + DecodeEvents(body) + DuplicateEvents(key, headers)
    else
      r == Handled(cb.raises, SaveStep in cb.steps, Settlement(cb) == Some(AckStep), Settlement(cb) == Some(NackStep)) &&
      cache' == cache + {ConsumerKey} &&
      rows' == SweptReceived(InboxAfterCallback(rows, cb, row), cache, DaysAgo(now, days)) &&
      trace' == trace + DecodeEvents(body) + HandledEvents(cb, headers, key)
  }

  /**
   * Every delivery is answered at most once and sends nothing: duplicates
   * and handled messages whose callback answered, saved or raised get one
   * answer, and a handled message without one is warned about.
   */
  lemma HandlerAnswersAtMostOnce(cb: Callback, days: int, body: Wire, headers: Headers, rowId: string, now: Time,
                                 up: bool, cache: set<CacheKey>, rows: seq<Received>, trace: seq<Event>,
                                 r: Outcome, cache': set<CacheKey>, rows': seq<Received>, trace': seq<Event>)
    requires HandlerSpec(cb, days, body, headers, rowId, now, up, cache, rows, trace, r, cache', rows', trace')
    ensures Replies(trace') == Replies(trace) + (if r.Duplicate? || (r.Handled? && (r.acked || r.nacked)) then 1 else 0)
    ensures Sends(trace') == Sends(trace)
    ensures r.Handled? && (r.raised || r.saved) ==> r.acked || r.nacked
    ensures r.Handled? && !r.acked && !r.nacked ==> Log(Warning, NoAckNoNack(LastId(headers))) in trace'
    ensures r.Handled? ==> !(r.acked && r.nacked)
  {
    DecodeQuiet(body);
    CountsAppend(trace, DecodeEvents(body));
    var key := LastId(headers);
    if r.Duplicate? {
      DuplicateEventsCounts(key, headers);
      CountsAppend(trace + DecodeEvents(body), DuplicateEvents(key, headers));
    } else if r.Handled? {
      FirstAnswerNotSave(cb.steps);
      HandledAnswersOnce(cb, headers, key);
      CountsAppend(trace + DecodeEvents(body), HandledEvents(cb, headers, key));
    }
  }

  lemma DecodeQuiet(body: Wire)
    ensures Replies(DecodeEvents(body)) == 0 && Sends(DecodeEvents(body)) == 0
  {
    if body.Garbled? {
      CountsOne(Log(Error, BodyNotJson(body.text)));
    }
  }

  /** The events of a discarded duplicate. */
  function DuplicateEvents(key: Option<HVal>, h: Headers): seq<Event> {
    [DbConnectionsClosed, Log(Info, DuplicateDiscarded(key)), AckCall(MessageId(h))]
  }

  lemma DuplicateEventsCounts(key: Option<HVal>, h: Headers)
    ensures Replies(DuplicateEvents(key, h)) == 1 && Sends(DuplicateEvents(key, h)) == 0
  {
    var e := DuplicateEvents(key, h);
    assert e == [e[0]] + [e[1]] + [e[2]];
    CountsOne(e[0]);
    CountsOne(e[1]);
    CountsOne(e[2]);
    CountsAppend([e[0]], [e[1]]);
    CountsAppend([e[0]] + [e[1]], [e[2]]);
  }

  /** The handled message's row is in the inbox after the callback exactly when it was saved and not rolled back, or was there already. */
  lemma InboxAfterCallbackMembers(rows: seq<Received>, cb: Callback, r: Received)
    ensures r in InboxAfterCallback(rows, cb, r) <==> (SaveStep in cb.steps && !(cb.raises && cb.atomic)) || r in rows
    ensures forall x :: x in InboxAfterCallback(rows, cb, r) ==> x == r || x in rows
    ensures forall x :: x in rows && x.id != r.id ==> x in InboxAfterCallback(rows, cb, r)
  {
    UpsertMembers(rows, ReceivedRow, r, r);
    forall x | x in rows || x in Upsert(rows, ReceivedRow, r)
      ensures x in Upsert(rows, ReceivedRow, r) ==> x == r || x in rows
      ensures x in rows && x.id != r.id ==> x in Upsert(rows, ReceivedRow, r)
    {
      UpsertMembers(rows, ReceivedRow, r, x);
    }
  }

  /**
   * Idempotent consumption: once a message was handled and its callback's
   * save was kept, a redelivery with the same deduplication key finds it
   * and is discarded as a duplicate, whatever the callback then is.
   */
  lemma RedeliveryIsDuplicate(cb: Callback, days: int, body: Wire, headers: Headers, rowId: string, now: Time,
                              cache: set<CacheKey>, rows: seq<Received>, trace: seq<Event>,
                              r: Outcome, cache': set<CacheKey>, rows': seq<Received>, trace': seq<Event>,
                              cb2: Callback, body2: Wire, headers2: Headers, rowId2: string, now2: Time,
                              r2: Outcome, cache'': set<CacheKey>, rows'': seq<Received>, trace'': seq<Event>)
    requires days >= 0
    requires HandlerSpec(cb, days, body, headers, rowId, now, true, cache, rows, trace, r, cache', rows', trace')
    requires r.Handled? && SaveStep in cb.steps && !(cb.raises && cb.atomic)
    requires LastId(headers2) == LastId(headers)
    requires HandlerSpec(cb2, days, body2, headers2, rowId2, now2, true, cache', rows', trace', r2, cache'', rows'', trace'')
    ensures r2 == Duplicate && rows'' == rows'
    ensures trace'' == trace' + DecodeEvents(body2) + DuplicateEvents(LastId(headers), headers2)
  {
    var row := NewReceived(rowId, Decoded(body), headers, LastId(headers), now);
    var inbox := InboxAfterCallback(rows, cb, row);
    InboxAfterCallbackMembers(rows, cb, row);
    if ConsumerKey !in cache {
      KeptMembers(inbox, ReceivedRow, AddedBefore(DaysAgo(now, days)), row);
    }
    assert row in rows';
  }

  /** The last `/`-separated segment of a destination: `destination.split("/")[-1]`. */
  function LastSegment(s: string): string {
    if s == [] || s[|s| - 1] == '/' then []
    else LastSegment(s[..|s| - 1]) + [s[|s| - 1]]
  }

  /** The segment is a suffix without `/`, preceded by a `/` unless it is the whole destination. */
  lemma {:induction false} LastSegmentMeaning(s: string)
    ensures var t := LastSegment(s);
      |t| <= |s| && s[|s| - |t|..] == t && '/' !in t && (|t| < |s| ==> s[|s| - |t| - 1] == '/')
  {
    if s != [] && s[|s| - 1] != '/' {
      var init := s[..|s| - 1];
      LastSegmentMeaning(init);
      var t := LastSegment(init);
      assert s[|s| - |t| - 1..] == init[|init| - |t|..] + [s[|s| - 1]];
      if |t| < |init| {
        assert s[|s| - |t| - 2] == init[|init| - |t| - 1];
      }
    }
  }

  /** The queue `_subscribe` declares: the given name, else the routing key; the dead-letter queue is prefixed `DLQ.`. */
  function QueueFor(destination: string, queueName: Option<string>, dlq: bool): string {
    var q := if Truthy(queueName) then queueName.value else LastSegment(destination);
    if dlq then "DLQ." + q else q
  }

  function DeadLetterKey(queue: string, dlq: bool): string {
    if dlq then "DLQ.DLQ." + queue else "DLQ." + queue
  }

  /** The entries `_subscribe` writes into the shared subscribe headers. */
  function QueueArguments(queue: string, dlq: bool, exclusive: HVal): Headers {
    [("exclusive", exclusive),
     ("x-queue-name", HStr(queue)),
     ("x-dead-letter-routing-key", HStr(DeadLetterKey(queue, dlq))),
     ("x-dead-letter-exchange", HStr(""))]
  }

  /**
   * Messages dead-lettered from the main queue are routed, through the default
   * exchange, to the dead-letter queue; those dead-lettered from the
   * dead-letter queue carry a key with the prefix three times.
   */
  lemma DeadLetterRouting(destination: string, queueName: Option<string>)
    ensures DeadLetterKey(QueueFor(destination, queueName, false), false) == QueueFor(destination, queueName, true)
    ensures DeadLetterKey(QueueFor(destination, queueName, true), true) ==
            "DLQ.DLQ.DLQ." + QueueFor(destination, queueName, false)
  {
  }

  /** Without a queue name the queue is named after the destination's last segment. */
  lemma QueueNamedAfterDestination(destination: string, queueName: Option<string>)
    ensures !Truthy(queueName) ==> QueueFor(destination, queueName, false) == LastSegment(destination)
    ensures Truthy(queueName) ==> QueueFor(destination, queueName, false) == queueName.value
  {
  }

  /** The events of one `_subscribe`. */
  function SubscribeEvents(destination: string, id: string, queueName: Option<string>, dlq: bool,
                           h: Headers, exclusive: HVal): seq<Event> {
    var q := QueueFor(destination, queueName, dlq);
    [SubscribeCall(if dlq then q else destination, id, "client", Update(h, QueueArguments(q, dlq, exclusive))),
     Log(Info, QueueCreated(q, id))]
  }

  /** Whether `start` declares the dead-letter queue: only while `subscribe_id` is falsy. */
  predicate DeclaresDlq(subscribeId: Option<string>) {
    !Truthy(subscribeId)
  }

  /** The uuids the dead-letter declaration of `start` draws. */
  function DlqDraws(subscribeId: Option<string>): nat {
    if DeclaresDlq(subscribeId) then 1 else 0
  }

  /** The subscription id `start` ends with: the existing one, or a fresh uuid drawn after the one the DLQ used. */
  function StartId(subscribeId: Option<string>, uuids: nat, uuid: nat -> string): string {
    if subscribeId.Some? then subscribeId.value else uuid(uuids + DlqDraws(subscribeId))
  }

  /** The events of `_create_dlq_queue` for a destination: declare the dead-letter queue and cancel that subscription. */
  function DlqEvents(destination: string, queueName: Option<string>, subscribeId: Option<string>,
                     uuids: nat, uuid: nat -> string, h: Headers, exclusive: HVal): seq<Event> {
    if DeclaresDlq(subscribeId) then
      SubscribeEvents(destination, uuid(uuids), queueName, true, h, exclusive) + [UnsubscribeCall(Some(uuid(uuids)))]
    else []
  }

  /** The subscribe headers after `start`. */
  function HeadersAfterDlq(h: Headers, destination: string, queueName: Option<string>, subscribeId: Option<string>,
                           exclusive: HVal): Headers {
    if DeclaresDlq(subscribeId) then Update(h, QueueArguments(QueueFor(destination, queueName, true), true, exclusive))
    else h
  }

  /** The events of `start` after connecting. */
  function StartEvents(destination: string, queueName: Option<string>, subscribeId: Option<string>,
                       uuids: nat, uuid: nat -> string, h: Headers, exclusive: HVal): seq<Event> {
    var id := StartId(subscribeId, uuids, uuid);
    DlqEvents(destination, queueName, subscribeId, uuids, uuid, h, exclusive) +
    SubscribeEvents(destination, id, queueName, false, HeadersAfterDlq(h, destination, queueName, subscribeId, exclusive), exclusive) +
    [Log(Info, ConsumerStarted(Some(id)))]
  }

  /**
   * A first `start` makes two subscriptions and cancels the first; a later
   * `start` reuses the id and makes one, and neither answers any message.
   */
  lemma StartCounts(destination: string, queueName: Option<string>, subscribeId: Option<string>,
                    uuids: nat, uuid: nat -> string, h: Headers, exclusive: HVal)
    ensures var t := StartEvents(destination, queueName, subscribeId, uuids, uuid, h, exclusive);
      |t| == (if DeclaresDlq(subscribeId) then 6 else 3) && Replies(t) == 0 && Sends(t) == 0
    ensures subscribeId.Some? ==> StartId(subscribeId, uuids, uuid) == subscribeId.value
  {
    var t := StartEvents(destination, queueName, subscribeId, uuids, uuid, h, exclusive);
    forall i | 0 <= i < |t|
      ensures !t[i].AckCall? && !t[i].NackCall? && !t[i].SendCall?
    {
    }
    NoRepliesNoSends(t);
  }

  lemma {:induction false} NoRepliesNoSends(t: seq<Event>)
    requires forall i :: 0 <= i < |t| ==> !t[i].AckCall? && !t[i].NackCall? && !t[i].SendCall?
    ensures Replies(t) == 0 && Sends(t) == 0
  {
    if t != [] {
      NoRepliesNoSends(t[1..]);
    }
  }

  class Consumer {
    const base: Base
    const db: Database
    const tuning: Tuning
    const listenerName: string
    var callback: Callback
    var destination: Option<string>
    var queueName: Option<string>
    var subscribeId: Option<string>
    /** `DEFAULT_STOMP_QUEUE_HEADERS`, which `_subscribe` updates in place. */
    var subscribeHeaders: Headers

    constructor(base: Base, db: Database, tuning: Tuning)
      modifies base.env
      ensures this.base == base && this.db == db && this.tuning == tuning
      ensures callback == Identity && destination == None && queueName == None && subscribeId == None
      ensures subscribeHeaders == tuning.queueHeaders
      ensures listenerName == "consumer-listener-" + base.env.uuid(old(base.env.uuids))
      ensures base.env.uuids == old(base.env.uuids) + 1
      ensures base.env.trace == old(base.env.trace) + [ListenerSet(listenerName)]
      ensures base.env.connected == old(base.env.connected) && base.env.cache == old(base.env.cache)
      ensures base.env.connectScript == old(base.env.connectScript) && base.env.sendScript == old(base.env.sendScript)
      ensures base.env.draws == old(base.env.draws)
    {
      this.base := base;
      this.db := db;
      this.tuning := tuning;
      callback := Identity;
      destination := None;
      queueName := None;
      subscribeId := None;
      subscribeHeaders := tuning.queueHeaders;
      var u := base.env.NewUuid();
      listenerName := "consumer-listener-" + u;
      new;
      base.env.Emit(ListenerSet(listenerName));
    }

    /** The callback, destination and queue name `start` stored are unchanged. */
    twostate predicate SameRequest()
      reads this
    {
      callback == old(callback) && destination == old(destination) && queueName == old(queueName)
    }

    /** `_subscribe`: name the queue, update the shared headers and subscribe in client-ack mode. */
    method Subscribe(destination: Option<string>, id: string, queueName: Option<string>, dlq: bool) returns (ok: bool)
      modifies this, base.env
      ensures ok <==> destination.Some?
      ensures ok ==>
        subscribeHeaders == Update(old(subscribeHeaders), QueueArguments(QueueFor(destination.value, queueName, dlq), dlq, tuning.exclusiveQueue)) &&
        base.env.trace == old(base.env.trace) + SubscribeEvents(destination.value, id, queueName, dlq, old(subscribeHeaders), tuning.exclusiveQueue)
      ensures !ok ==> subscribeHeaders == old(subscribeHeaders) && base.env.trace == old(base.env.trace)
      ensures base.env.OnlyTrace()
      ensures callback == old(callback) && this.destination == old(this.destination)
      ensures this.queueName == old(this.queueName) && subscribeId == old(subscribeId)
    {
      if destination.None? {
        // `None.split` raises AttributeError before anything happens.
        return false;
      }
      var q := QueueFor(destination.value, queueName, dlq);
      subscribeHeaders := Update(subscribeHeaders, QueueArguments(q, dlq, tuning.exclusiveQueue));
      base.env.Emit(SubscribeCall(if dlq then q else destination.value, id, "client", subscribeHeaders));
      base.env.Emit(Log(Info, QueueCreated(q, id)));
      ok := true;
    }

    /** `_create_dlq_queue`: while `subscribe_id` is falsy, declare the dead-letter queue and cancel that subscription. */
    method CreateDlqQueue(destination: Option<string>, queueName: Option<string>) returns (ok: bool)
      modifies this, base.env
      ensures ok <==> destination.Some? || !DeclaresDlq(old(subscribeId))
      ensures base.env.uuids == old(base.env.uuids) + DlqDraws(old(subscribeId))
      ensures destination.Some? ==>
        subscribeHeaders == HeadersAfterDlq(old(subscribeHeaders), destination.value, queueName, old(subscribeId), tuning.exclusiveQueue) &&
        base.env.trace == old(base.env.trace) +
          DlqEvents(destination.value, queueName, old(subscribeId), old(base.env.uuids), base.env.uuid, old(subscribeHeaders), tuning.exclusiveQueue)
      ensures !DeclaresDlq(old(subscribeId)) ==> subscribeHeaders == old(subscribeHeaders) && base.env.trace == old(base.env.trace)
      ensures base.env.OnlyTraceAndUuids()
      ensures SameRequest() && subscribeId == old(subscribeId)
    {
      ok := true;
      if !Truthy(subscribeId) {
        var id := base.env.NewUuid();
        ok := Subscribe(destination, id, queueName, true);
        if !ok {
          return;
        }
        base.env.Emit(UnsubscribeCall(Some(id)));
      }
    }

    /** `_create_queue`: generate `subscribe_id` once, then subscribe to the destination with it. */
    method CreateQueue(destination: Option<string>, queueName: Option<string>) returns (ok: bool)
      modifies this, base.env
      ensures ok <==> destination.Some?
      ensures old(subscribeId).Some? ==> subscribeId == old(subscribeId) && base.env.uuids == old(base.env.uuids)
      ensures old(subscribeId).None? ==>
        subscribeId == Some(base.env.uuid(old(base.env.uuids))) && base.env.uuids == old(base.env.uuids) + 1
      ensures ok ==>
        subscribeHeaders == Update(old(subscribeHeaders), QueueArguments(QueueFor(destination.value, queueName, false), false, tuning.exclusiveQueue)) &&
        base.env.trace == old(base.env.trace) + SubscribeEvents(destination.value, subscribeId.value, queueName, false, old(subscribeHeaders), tuning.exclusiveQueue)
      ensures base.env.OnlyTraceAndUuids()
      ensures SameRequest()
    {
      if subscribeId.None? {
        var u := base.env.NewUuid();
        subscribeId := Some(u);
      }
      ok := Subscribe(destination, subscribeId.value, queueName, false);
    }

    /** The queue declarations of `start`, then its log record; a missing destination raises `AttributeError`. */
    method CreateQueues(destination: Option<string>, queueName: Option<string>) returns (ok: bool)
      modifies this, base.env
      ensures ok <==> destination.Some?
      ensures ok ==>
        subscribeId == Some(StartId(old(subscribeId), old(base.env.uuids), base.env.uuid)) &&
        base.env.trace == old(base.env.trace) +
          StartEvents(destination.value, queueName, old(subscribeId), old(base.env.uuids), base.env.uuid,
                      old(subscribeHeaders), tuning.exclusiveQueue)
      ensures base.env.OnlyTraceAndUuids()
      ensures SameRequest()
    {
      ghost var t0 := base.env.trace;
      ghost var s0 := subscribeId;
      ghost var h0 := subscribeHeaders;
      ok := CreateDlqQueue(destination, queueName);
      if !ok {
        return;
      }
      ghost var t1 := base.env.trace;
      ok := Subscribed(destination, queueName);
      if ok {
        Regroup(t0, t1[|t0|..], SubscribeEvents(destination.value, subscribeId.value, queueName, false,
                                                HeadersAfterDlq(h0, destination.value, queueName, s0, tuning.exclusiveQueue),
                                                tuning.exclusiveQueue),
                [Log(Info, ConsumerStarted(subscribeId))]);
      }
    }

    /** `_create_queue`, then the log record of `start`, which only a subscription reaches. */
    method Subscribed(destination: Option<string>, queueName: Option<string>) returns (ok: bool)
      modifies this, base.env
      ensures ok <==> destination.Some?
      ensures old(subscribeId).Some? ==> subscribeId == old(subscribeId) && base.env.uuids == old(base.env.uuids)
      ensures old(subscribeId).None? ==>
        subscribeId == Some(base.env.uuid(old(base.env.uuids))) && base.env.uuids == old(base.env.uuids) + 1
      ensures ok ==>
        base.env.trace == old(base.env.trace) +
          SubscribeEvents(destination.value, subscribeId.value, queueName, false, old(subscribeHeaders), tuning.exclusiveQueue) +
          [Log(Info, ConsumerStarted(subscribeId))]
      ensures base.env.OnlyTraceAndUuids()
      ensures SameRequest()
    {
      ok := CreateQueue(destination, queueName);
      if ok {
        base.env.Emit(Log(Info, ConsumerStarted(subscribeId)));
      }
    }

    /**
     * `start`: connect, remember the callback and destination, declare the
     * dead-letter queue if there is no subscription yet, then subscribe.
     */
    method Start(callback: Callback, destination: Option<string>, queueName: Option<string>) returns (ok: bool)
      modifies this, base, base.env
      ensures ok <==> destination.Some?
      ensures base.env.connected
      ensures this.callback == callback && this.destination == destination && this.queueName == queueName
      ensures ok ==>
        var connectPart := if old(base.env.connected) then [] else
          ConnectEvents(old(base.env.connectScript), old(base.attempts), old(base.env.draws), base.env.uniform, base.maximumBackoff);
        subscribeId == Some(StartId(old(subscribeId), old(base.env.uuids), base.env.uuid)) &&
        base.env.trace == old(base.env.trace) + connectPart +
          StartEvents(destination.value, queueName, old(subscribeId), old(base.env.uuids), base.env.uuid,
                      old(subscribeHeaders), tuning.exclusiveQueue)
      ensures base.env.cache == old(base.env.cache) && base.env.sendScript == old(base.env.sendScript)
    {
      base.Connect();
      this.callback := callback;
      this.destination := destination;
      this.queueName := queueName;
      ok := CreateQueues(destination, queueName);
    }

    /** `_unsubscribe`. */
    method Unsubscribe()
      modifies this, base.env
      ensures subscribeId == None
      ensures base.env.trace == old(base.env.trace) + [UnsubscribeCall(old(subscribeId)), Log(Info, SubscriptionCanceled(old(subscribeId)))]
      ensures base.env.OnlyTrace()
      ensures callback == old(callback) && destination == old(destination) && queueName == old(queueName)
      ensures subscribeHeaders == old(subscribeHeaders)
    {
      base.env.Emit(UnsubscribeCall(subscribeId));
      base.env.Emit(Log(Info, SubscriptionCanceled(subscribeId)));
      subscribeId := None;
    }

    /** `stop`: only a started, connected consumer unsubscribes, drops its listener and disconnects. */
    method Stop()
      modifies this, base.env
      ensures Truthy(old(subscribeId)) && old(base.env.connected) ==>
        subscribeId == None && !base.env.connected &&
        base.env.trace == old(base.env.trace) +
          [UnsubscribeCall(old(subscribeId)), Log(Info, SubscriptionCanceled(old(subscribeId))),
           ListenerRemoved(listenerName), DisconnectCall]
      ensures !(Truthy(old(subscribeId)) && old(base.env.connected)) ==>
        subscribeId == old(subscribeId) && base.env.connected == old(base.env.connected) &&
        base.env.trace == old(base.env.trace) + [Log(Info, ConsumerNotStarted)]
      ensures base.env.cache == old(base.env.cache) && base.env.uuids == old(base.env.uuids)
      ensures callback == old(callback) && destination == old(destination) && queueName == old(queueName)
    {
      if Truthy(subscribeId) && base.env.connected {
        Unsubscribe();
        base.env.Emit(ListenerRemoved(listenerName));
        base.Disconnect();
      } else {
        base.env.Emit(Log(Info, ConsumerNotStarted));
      }
    }

    /** `_remove_old_messages`: unless the cache flag is set, delete inbox rows added before the cutoff and set the flag. */
    method RemoveOldMessages(now: Time)
      requires db.Valid()
      modifies db, base.env
      ensures db.Valid()
      ensures db.received == SweptReceived(old(db.received), old(base.env.cache), DaysAgo(now, tuning.daysToKeepData))
      ensures base.env.cache == old(base.env.cache) + {ConsumerKey}
      ensures db.published == old(db.published) && db.up == old(db.up)
      ensures base.env.trace == old(base.env.trace) && base.env.connected == old(base.env.connected)
      ensures base.env.connectScript == old(base.env.connectScript) && base.env.sendScript == old(base.env.sendScript)
      ensures base.env.draws == old(base.env.draws) && base.env.uuids == old(base.env.uuids)
    {
      if ConsumerKey in base.env.cache {
        return;
      }
      db.DeleteReceived(AddedBefore(DaysAgo(now, tuning.daysToKeepData)));
      base.env.CacheSet(ConsumerKey);
    }

    /**
     * `self.callback(payload)`: the callback's calls on the payload, in order;
     * a raise inside its own atomic block rolls its inbox writes back.
     */
    method RunCallback(payload: Payload, cb: Callback) returns (raised: bool)
      requires payload.Valid() && payload.env == base.env && payload.db == db && db.Valid()
      requires payload.message.Some? && !MsgIdClash(db.received, payload.message.value)
      requires !payload.saved && !payload.acked && !payload.nacked
      modifies payload, db, base.env
      ensures payload.Valid() && db.Valid()
      ensures raised == cb.raises
      ensures payload.saved <==> SaveStep in cb.steps
      ensures payload.acked <==> FirstAnswer(cb.steps) == Some(AckStep)
      ensures payload.nacked <==> FirstAnswer(cb.steps) == Some(NackStep)
      ensures db.received == InboxAfterCallback(old(db.received), cb, old(payload.message).value)
      ensures base.env.trace == old(base.env.trace) + AnswerEvents(FirstAnswer(cb.steps), payload.headers)
      ensures base.env.OnlyTrace()
      ensures payload.message == old(payload.message) && db.published == old(db.published) && db.up == old(db.up)
    {
      var snapshot := db.received;
      var r := payload.message.value;
      var i := 0;
      while i < |cb.steps|
        invariant 0 <= i <= |cb.steps|
        invariant payload.Valid() && db.Valid() && payload.message == Some(r)
        invariant db.published == old(db.published) && db.up == old(db.up)
        invariant Called(payload, cb.steps[..i], snapshot, r, old(base.env.trace))
        invariant base.env.OnlyTrace()
        decreases |cb.steps| - i
      {
        assert cb.steps[..i + 1] == cb.steps[..i] + [cb.steps[i]];
        RunStep(payload, cb.steps[i], cb.steps[..i], snapshot, r, old(base.env.trace));
        i := i + 1;
      }
      assert cb.steps[..|cb.steps|] == cb.steps;
      raised := cb.raises;
      if raised && cb.atomic {
        db.RollbackReceived(snapshot);
      }
    }

    /**
     * The payload, inbox and trace after the callback's steps `done`, started
     * on the inbox `snapshot` and the trace `t0`.
     */
    ghost predicate Called(payload: Payload, done: seq<Step>, snapshot: seq<Received>, r: Received, t0: seq<Event>)
      reads payload, db, base.env
    {
      (payload.saved <==> SaveStep in done) &&
      (payload.acked <==> FirstAnswer(done) == Some(AckStep)) &&
      (payload.nacked <==> FirstAnswer(done) == Some(NackStep)) &&
      db.received == (if SaveStep in done then Upsert(snapshot, ReceivedRow, r) else snapshot) &&
      base.env.trace == t0 + AnswerEvents(FirstAnswer(done), payload.headers)
    }

    /** One call the callback makes on the payload. */
    method RunStep(payload: Payload, step: Step, ghost done: seq<Step>, ghost snapshot: seq<Received>,
                   ghost r: Received, ghost t0: seq<Event>)
      requires payload.Valid() && payload.env == base.env && payload.db == db && db.Valid()
      requires payload.message == Some(r) && !MsgIdClash(snapshot, r)
      requires Called(payload, done, snapshot, r, t0)
      modifies payload, db, base.env
      ensures payload.Valid() && db.Valid() && payload.message == Some(r)
      ensures db.published == old(db.published) && db.up == old(db.up)
      ensures Called(payload, done + [step], snapshot, r, t0)
      ensures base.env.OnlyTrace()
    {
      FirstAnswerSnoc(done, step);
      FirstAnswerNotSave(done);
      match step {
        case SaveStep =>
          if SaveStep in done {
            NoClashAfterOwnSave(snapshot, r);
            UpsertTwice(snapshot, ReceivedRow, r);
          }
          var ok := payload.Save();
        case AckStep =>
          payload.Ack();
        case NackStep =>
          payload.Nack();
      }
    }

    /** `json.loads(body)`, logging the error and keeping the raw text when the body is not JSON. */
    method Decode(body: Wire) returns (doc: Json)
      modifies base.env
      ensures doc == Decoded(body)
      ensures base.env.trace == old(base.env.trace) + DecodeEvents(body)
      ensures base.env.OnlyTrace()
    {
      match Loads(body) {
        case Ok(v) =>
          doc := v;
        case Err(text) =>
          base.env.Emit(Log(Error, BodyNotJson(text)));
          doc := JStr(text);
      }
    }

    /** The duplicate branch of `message_handler`: close the connections, log, and acknowledge. */
    method Discard(payload: Payload, messageId: Option<HVal>)
      requires payload.Valid() && payload.env == base.env && !payload.acked && !payload.nacked
      modifies payload, base.env
      ensures payload.Valid() && payload.acked && !payload.nacked
      ensures base.env.trace == old(base.env.trace) +
        DuplicateEvents(messageId, payload.headers)
      ensures base.env.OnlyTrace()
    {
      ghost var t0 := base.env.trace;
      base.env.Emit(DbConnectionsClosed);
      StrayEvent(t0, payload.mark, DbConnectionsClosed);
      ghost var t1 := base.env.trace;
      base.env.Emit(Log(Info, DuplicateDiscarded(messageId)));
      StrayEvent(t1, payload.mark, Log(Info, DuplicateDiscarded(messageId)));
      payload.Ack();
    }

    /**
     * The try block of `message_handler`: run the callback; after a raise,
     * log and nack; after a save, ack; otherwise warn.
     */
    method Settle(payload: Payload, cb: Callback, messageId: Option<HVal>) returns (raised: bool)
      requires payload.Valid() && payload.env == base.env && payload.db == db && db.Valid()
      requires payload.message.Some? && !MsgIdClash(db.received, payload.message.value)
      requires !payload.saved && !payload.acked && !payload.nacked
      modifies payload, db, base.env
      ensures payload.message == old(payload.message) && db.published == old(db.published) && db.up == old(db.up)
      ensures payload.Valid() && db.Valid()
      ensures raised == cb.raises
      ensures payload.saved <==> SaveStep in cb.steps
      ensures payload.acked <==> Settlement(cb) == Some(AckStep)
      ensures payload.nacked <==> Settlement(cb) == Some(NackStep)
      ensures db.received == InboxAfterCallback(old(db.received), cb, old(payload.message).value)
      ensures base.env.trace == old(base.env.trace) + AnswerEvents(FirstAnswer(cb.steps), payload.headers) +
                                AfterCallbackEvents(cb, payload.headers, messageId)
      ensures base.env.OnlyTrace()
    {
      raised := RunCallback(payload, cb);
      Conclude(payload, cb, messageId);
    }

    /** After the callback: log and nack after a raise, ack after a save, otherwise warn. */
    method Conclude(payload: Payload, cb: Callback, messageId: Option<HVal>)
      requires payload.Valid() && payload.env == base.env
      requires payload.saved <==> SaveStep in cb.steps
      requires payload.acked <==> FirstAnswer(cb.steps) == Some(AckStep)
      requires payload.nacked <==> FirstAnswer(cb.steps) == Some(NackStep)
      modifies payload, base.env
      ensures payload.Valid() && payload.message == old(payload.message) && payload.saved == old(payload.saved)
      ensures payload.acked <==> Settlement(cb) == Some(AckStep)
      ensures payload.nacked <==> Settlement(cb) == Some(NackStep)
      ensures base.env.trace == old(base.env.trace) + AfterCallbackEvents(cb, payload.headers, messageId)
      ensures base.env.OnlyTrace()
    {
      ghost var t := base.env.trace;
      FirstAnswerCases(cb.steps);
      if cb.raises {
        base.env.Emit(Log(Error, CallbackFailed));
        StrayEvent(t, payload.mark, Log(Error, CallbackFailed));
        payload.Nack();
      } else if payload.saved {
        payload.Ack();
      } else {
        // `not payload.saved or not payload.nacked`: always true once `saved` is false.
        base.env.Emit(Log(Warning, NoAckNoNack(messageId)));
        StrayEvent(t, payload.mark, Log(Warning, NoAckNoNack(messageId)));
      }
    }

    /** The try statement of `message_handler`, with its `finally` clauses: the sweep and the closing of connections. */
    method Process(payload: Payload, messageId: Option<HVal>, now: Time) returns (raised: bool)
      requires payload.Valid() && payload.env == base.env && payload.db == db && db.Valid()
      requires payload.message.Some? && !MsgIdClash(db.received, payload.message.value)
      requires !payload.saved && !payload.acked && !payload.nacked
      modifies payload, db, base.env
      ensures db.Valid()
      ensures raised == callback.raises
      ensures payload.saved <==> SaveStep in callback.steps
      ensures payload.acked <==> Settlement(callback) == Some(AckStep)
      ensures payload.nacked <==> Settlement(callback) == Some(NackStep)
      ensures db.received == SweptReceived(InboxAfterCallback(old(db.received), callback, old(payload.message).value),
                                           old(base.env.cache), DaysAgo(now, tuning.daysToKeepData))
      ensures base.env.trace == old(base.env.trace) + HandledEvents(callback, payload.headers, messageId)
      ensures db.published == old(db.published) && db.up == old(db.up)
      ensures base.env.connected == old(base.env.connected) && base.env.uuids == old(base.env.uuids)
      ensures base.env.cache == old(base.env.cache) + {ConsumerKey}
    {
      ghost var t0 := base.env.trace;
      raised := Settle(payload, callback, messageId);
      ghost var t1 := base.env.trace;
      RemoveOldMessages(now);
      base.env.Emit(DbConnectionsClosed);
      Regroup(t0, AnswerEvents(FirstAnswer(callback.steps), payload.headers),
              AfterCallbackEvents(callback, payload.headers, messageId), [DbConnectionsClosed]);
    }

    /**
     * `message_handler`: decode the body, discard a message whose
     * deduplication key is already in the inbox (acknowledging it), run the
     * callback otherwise, then sweep the inbox and close the database
     * connections.
     */
    method MessageHandler(body: Wire, headers: Headers, rowId: string, now: Time) returns (r: Outcome)
      requires db.Valid()
      modifies db, base.env
      ensures db.Valid()
      ensures HandlerSpec(callback, tuning.daysToKeepData, body, headers, rowId, now, old(db.up),
                          old(base.env.cache), old(db.received), old(base.env.trace),
                          r, base.env.cache, db.received, base.env.trace)
      ensures db.published == old(db.published) && db.up == old(db.up)
      ensures base.env.connected == old(base.env.connected) && base.env.uuids == old(base.env.uuids)
    {
      var doc := Decode(body);
      if !db.up {
        // `Received.objects.filter(...).exists()` raises before the try block.
        return DatabaseDown;
      }
      var payload := new Payload(base.env, db, doc, headers, None);
      var messageId := GetMsgId(headers);
      if MsgIdTaken(db.received, messageId) {
        Discard(payload, messageId);
        return Duplicate;
      }
      payload.message := Some(NewReceived(rowId, doc, headers, messageId, now));
      var raised := Process(payload, messageId, now);
      r := Handled(raised, payload.saved, payload.acked, payload.nacked);
    }
  }
}

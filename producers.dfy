/**
 * django_outbox_pattern/producers.py: sending with retries, the retention
 * sweep of the outbox, and the relay that publishes due outbox rows.
 */
module Producers {
  import opened Wrappers
  import opened Values
  import opened Headers
  import opened Choices
  import opened Models
  import opened Tables
  import opened Store
  import opened World
  import opened Bases

  /** What `_send_with_retry` ends with: a return value, or `ExceededSendAttemptsException(attempts)`. */
  datatype SendOutcome = Sent(attempts: nat) | Exceeded(attempts: nat)

  /** The outcome the retry loop reaches against a broker that answers as `script` says. */
  function RetryOutcome(script: seq<bool>, maxAttempts: int): SendOutcome {
    if maxAttempts <= 0 then Exceeded(0)
    else if Leading(script) < maxAttempts then Sent(Leading(script))
    else Exceeded(maxAttempts)
  }

  /** A send succeeds exactly when fewer than the limit of calls are refused first. */
  lemma RetryOutcomeMeaning(script: seq<bool>, maxAttempts: int)
    ensures RetryOutcome(script, maxAttempts).Sent? <==> 0 < maxAttempts && Leading(script) < maxAttempts
    ensures RetryOutcome(script, maxAttempts).Sent? ==>
      var k := RetryOutcome(script, maxAttempts).attempts;
      k < maxAttempts && (forall i :: 0 <= i < k ==> script[i]) && (k == |script| || !script[k])
    ensures RetryOutcome(script, maxAttempts).Exceeded? ==>
      var a := RetryOutcome(script, maxAttempts).attempts;
      a == (if maxAttempts <= 0 then 0 else maxAttempts) && a <= |script| &&
      (forall i :: 0 <= i < a ==> script[i])
  {
  }

  /** The sleep after the k-th refused send: none after the first two, a pause after the third, a wait after each later one. */
  function SleepAfter(k: nat, t: Tuning): seq<Event> {
    if k == 3 then [Sleep(t.pauseForRetry)]
    else if k > 3 then [Sleep(t.waitRetry)]
    else []
  }

  /** The events of `n` refused sends in a row. */
  function FailureEvents(frame: Frame, n: nat, t: Tuning): seq<Event> {
    if n == 0 then [] else FailureEvents(frame, n - 1, t) + [SendCall(frame, true)] + SleepAfter(n, t)
  }

  /** The events of one `_send_with_retry` call. */
  function RetryEvents(frame: Frame, script: seq<bool>, t: Tuning): seq<Event> {
    match RetryOutcome(script, t.maxRetryAttempts)
    case Sent(k) => FailureEvents(frame, k, t) + [SendCall(frame, false)]
    case Exceeded(a) => FailureEvents(frame, a, t)
  }

  function Repeat(x: real, n: nat): seq<real> {
    if n == 0 then [] else Repeat(x, n - 1) + [x]
  }

  /**
   * After `n` refusals there have been `n` send calls and no acknowledgement, and
   * the sleeps were one pause followed by `n - 3` waits (none at all for n < 3).
   */
  lemma {:induction false} FailureEventsCounts(frame: Frame, n: nat, t: Tuning)
    ensures Sends(FailureEvents(frame, n, t)) == n
    ensures Replies(FailureEvents(frame, n, t)) == 0
    ensures Sleeps(FailureEvents(frame, n, t)) == if n < 3 then [] else [t.pauseForRetry] + Repeat(t.waitRetry, n - 3)
  {
    if n > 0 {
      FailureEventsCounts(frame, n - 1, t);
      FailureEventsStep(frame, n, t);
      if n > 3 {
        assert Repeat(t.waitRetry, n - 3) == Repeat(t.waitRetry, n - 4) + [t.waitRetry];
        AppendAssoc([t.pauseForRetry], Repeat(t.waitRetry, n - 4), [t.waitRetry]);
      } else if n == 3 {
        assert [] + [t.pauseForRetry] == [t.pauseForRetry] + Repeat(t.waitRetry, 0);
      }
    }
  }

  /** One more refusal adds one send call and the sleep that follows it. */
  lemma FailureEventsStep(frame: Frame, n: nat, t: Tuning)
    requires n > 0
    ensures Sends(FailureEvents(frame, n, t)) == Sends(FailureEvents(frame, n - 1, t)) + 1
    ensures Replies(FailureEvents(frame, n, t)) == Replies(FailureEvents(frame, n - 1, t))
    ensures Sleeps(FailureEvents(frame, n, t)) ==
      Sleeps(FailureEvents(frame, n - 1, t)) + (if n == 3 then [t.pauseForRetry] else if n > 3 then [t.waitRetry] else [])
  {
    var prefix := FailureEvents(frame, n - 1, t);
    CountsOne(SendCall(frame, true));
    CountsAppend(prefix, [SendCall(frame, true)]);
    CountsAppend(prefix + [SendCall(frame, true)], SleepAfter(n, t));
    if n >= 3 {
      CountsOne(SleepAfter(n, t)[0]);
    } else {
      assert SleepAfter(n, t) == [];
    }
  }

  /** A send that goes through after k refusals made k + 1 send calls; one that gives up made `attempts` calls. */
  lemma RetrySendCount(frame: Frame, script: seq<bool>, t: Tuning)
    ensures var o := RetryOutcome(script, t.maxRetryAttempts);
      Sends(RetryEvents(frame, script, t)) == o.attempts + (if o.Sent? then 1 else 0)
    ensures Replies(RetryEvents(frame, script, t)) == 0
  {
    var o := RetryOutcome(script, t.maxRetryAttempts);
    FailureEventsCounts(frame, o.attempts, t);
    if o.Sent? {
      CountsOne(SendCall(frame, false));
      CountsAppend(FailureEvents(frame, o.attempts, t), [SendCall(frame, false)]);
    }
  }

  /** The send script left after one `_send_with_retry` call. */
  function SendsLeft(script: seq<bool>, o: SendOutcome): seq<bool> {
    var used := o.attempts + (if o.Sent? then 1 else 0);
    if used <= |script| then script[used..] else []
  }

  /** The loop stops at an accepted call after `k` refusals. */
  lemma SentAfter(frame: Frame, script: seq<bool>, k: nat, t: Tuning)
    requires k < t.maxRetryAttempts && k <= |script| && (forall i :: 0 <= i < k ==> script[i])
    requires k == |script| || !script[k]
    ensures RetryOutcome(script, t.maxRetryAttempts) == Sent(k)
    ensures RetryEvents(frame, script, t) == FailureEvents(frame, k, t) + [SendCall(frame, false)]
    ensures SendsLeft(script, Sent(k)) == Tail(script[k..])
  {
    LeadingExact(script, k);
  }

  /** The loop runs out of attempts after `a` refusals. */
  lemma ExceededAfter(frame: Frame, script: seq<bool>, a: nat, t: Tuning)
    requires a <= |script| && (forall i :: 0 <= i < a ==> script[i])
    requires a == 0 || a <= t.maxRetryAttempts
    requires a >= t.maxRetryAttempts
    ensures RetryOutcome(script, t.maxRetryAttempts) == Exceeded(a)
    ensures RetryEvents(frame, script, t) == FailureEvents(frame, a, t)
    ensures SendsLeft(script, Exceeded(a)) == script[a..]
  {
    if t.maxRetryAttempts > 0 {
      LeadingAtLeast(script, a);
    }
  }

  /** Keyword arguments a caller passes to `send` or `send_event`; they replace the computed ones. */
  datatype Overrides = Overrides(body: Option<Wire>, destination: Option<string>, headers: Option<Headers>)

  const NoOverrides: Overrides := Overrides(None, None, None)

  /** The frame `send` hands on: the record's encoded body, destination and headers, unless overridden. */
  function RecordFrame(m: Published, o: Overrides): Frame {
    Frame(o.body.GetOr(Dumps(m.body)), o.destination.GetOr(m.destination),
          if o.headers.Some? then o.headers else Some(m.headers))
  }

  /** The frame `send_event` hands on: no headers unless the caller passes some. */
  function EventFrame(body: Json, destination: string, o: Overrides): Frame {
    Frame(o.body.GetOr(Dumps(body)), o.destination.GetOr(destination), o.headers)
  }

  /** Caller arguments win; without them the frame carries the record, and its body decodes back to the record's body. */
  lemma RecordFrameFields(m: Published, o: Overrides)
    ensures var f := RecordFrame(m, o);
      (o.body.Some? ==> f.body == o.body.value) &&
      (o.body.None? ==> Loads(f.body) == Ok(m.body)) &&
      f.destination == (if o.destination.Some? then o.destination.value else m.destination) &&
      f.headers == Some(if o.headers.Some? then o.headers.value else m.headers)
  {
  }

  lemma EventFrameFields(body: Json, destination: string, o: Overrides)
    ensures var f := EventFrame(body, destination, o);
      (o.body.None? ==> Loads(f.body) == Ok(body)) &&
      (o.destination.None? ==> f.destination == destination) &&
      (o.headers.None? <==> f.headers.None?)
  {
  }

  /** The rows `filter(status=SCHEDULE, expires_at__gte=now)` selects. */
  predicate IsDue(p: Published, now: Time) {
    p.status == Schedule && p.expiresAt >= now
  }

  function DueRows(rows: seq<Published>, now: Time): seq<Published> {
    if rows == [] then []
    else if IsDue(rows[0], now) then [rows[0]] + DueRows(rows[1..], now)
    else DueRows(rows[1..], now)
  }

  lemma {:induction false} DueRowsMembers(rows: seq<Published>, now: Time, x: Published)
    ensures x in DueRows(rows, now) <==> x in rows && IsDue(x, now)
  {
    if rows != [] {
      DueRowsMembers(rows[1..], now, x);
    }
  }

  lemma {:induction false} DueRowsUnique(rows: seq<Published>, now: Time)
    requires UniqueIds(rows, PublishedRow)
    ensures UniqueIds(DueRows(rows, now), PublishedRow)
    ensures Ids(DueRows(rows, now), PublishedRow) <= Ids(rows, PublishedRow)
  {
    if rows != [] {
      DueRowsUnique(rows[1..], now);
      if IsDue(rows[0], now) {
        assert ([rows[0]] + DueRows(rows[1..], now))[1..] == DueRows(rows[1..], now);
      }
    }
  }

  const FailedRetention: int := 15 * Day

  /** The fields `publish_message_from_database` sets on a row after trying to send it. */
  function Transition(m: Published, o: SendOutcome, now: Time): Published {
    match o
    case Sent(k) => m.(retry := k, status := Succeeded)
    case Exceeded(a) => m.(retry := a, status := Failed, expiresAt := now + FailedRetention)
  }

  /**
   * A processed row ends SUCCEEDED with the number of refused sends, or FAILED
   * with the number of attempts and fifteen more days to live; either way it
   * is no longer due, at any later time.
   */
  lemma TransitionSettles(m: Published, o: SendOutcome, now: Time, later: Time, requestId: Option<string>)
    ensures var q := SavedForm(Transition(m, o, now), now, requestId);
      q.id == m.id && q.body == m.body && q.retry == o.attempts && !IsDue(q, later) &&
      (o.Sent? ==> q.status == Succeeded && q.expiresAt == m.expiresAt) &&
      (o.Exceeded? ==> q.status == Failed && q.expiresAt == now + FailedRetention)
  {
  }

  /** The log records `publish_message_from_database` writes once a row's send has ended. */
  function OutcomeLogs(m: Published, o: SendOutcome): seq<Event> {
    match o
    case Sent(_) => [Log(Info, MessagePublished(m.id))]
    case Exceeded(_) => [Log(Error, SendAttemptsExceeded), Log(Info, MessageNotPublished(m.id))]
  }

  /** The events of relaying one row against the send script `script`: the debug record, one `send`, the outcome's records. */
  function RowEvents(m: Published, script: seq<bool>, t: Tuning): seq<Event> {
    [Log(Debug, MessageToPublish(m.body))] + RetryEvents(RecordFrame(m, NoOverrides), script, t) +
    OutcomeLogs(m, RetryOutcome(script, t.maxRetryAttempts))
  }

  /** Relaying a row answers nothing and sends its own frame as often as the retry loop tried. */
  lemma RowEventsCounts(m: Published, script: seq<bool>, t: Tuning)
    ensures var o := RetryOutcome(script, t.maxRetryAttempts);
      Sends(RowEvents(m, script, t)) == o.attempts + (if o.Sent? then 1 else 0) &&
      Replies(RowEvents(m, script, t)) == 0
  {
    var o := RetryOutcome(script, t.maxRetryAttempts);
    var frame := RecordFrame(m, NoOverrides);
    RetrySendCount(frame, script, t);
    CountsOne(Log(Debug, MessageToPublish(m.body)));
    CountsAppend([Log(Debug, MessageToPublish(m.body))], RetryEvents(frame, script, t));
    CountsAppend([Log(Debug, MessageToPublish(m.body))] + RetryEvents(frame, script, t), OutcomeLogs(m, o));
    if o.Sent? {
      CountsOne(OutcomeLogs(m, o)[0]);
    } else {
      CountsOne(Log(Error, SendAttemptsExceeded));
      CountsOne(Log(Info, MessageNotPublished(m.id)));
      CountsAppend([Log(Error, SendAttemptsExceeded)], [Log(Info, MessageNotPublished(m.id))]);
    }
  }

  /** Every send made while relaying a row carries that row's frame. */
  lemma RowEventsFrames(m: Published, script: seq<bool>, t: Tuning, e: Event)
    requires e in RowEvents(m, script, t) && e.SendCall?
    ensures e.frame == RecordFrame(m, NoOverrides)
  {
    var o := RetryOutcome(script, t.maxRetryAttempts);
    var frame := RecordFrame(m, NoOverrides);
    FailureEventsFrames(frame, o.attempts, t);
    assert e in RetryEvents(frame, script, t);
  }

  /** Every send of the retry loop carries the frame it was given. */
  lemma {:induction false} FailureEventsFrames(frame: Frame, n: nat, t: Tuning)
    ensures forall e :: e in FailureEvents(frame, n, t) ==> e.SendCall? ==> e.frame == frame
  {
    if n > 0 {
      FailureEventsFrames(frame, n - 1, t);
    }
  }

  /** The send script left after the relay has sent `n` rows, starting from `script`. */
  function RelayScript(script: seq<bool>, n: nat, maxAttempts: int): seq<bool> {
    if n == 0 then script
    else
      var s := RelayScript(script, n - 1, maxAttempts);
      SendsLeft(s, RetryOutcome(s, maxAttempts))
  }

  /** `[f(0), ..., f(n - 1)]`, built one element at a time. */
  function Prefix<T>(f: nat -> T, n: nat): seq<T> {
    if n == 0 then [] else Prefix(f, n - 1) + [f(n - 1)]
  }

  lemma {:induction false} PrefixAt<T>(f: nat -> T, n: nat)
    ensures |Prefix(f, n)| == n && forall i :: 0 <= i < n ==> Prefix(f, n)[i] == f(i)
  {
    if n > 0 {
      PrefixAt(f, n - 1);
    }
  }

  /** The outcomes of the first `n` rows: each row's send meets the script its predecessors left. */
  function RelayOutcomes(script: seq<bool>, n: nat, maxAttempts: int): seq<SendOutcome> {
    Prefix((i: nat) => RetryOutcome(RelayScript(script, i, maxAttempts), maxAttempts), n)
  }

  /** `f(0) + ... + f(n - 1)`. */
  function Concat<T>(f: nat -> seq<T>, n: nat): seq<T> {
    if n == 0 then [] else Concat(f, n - 1) + f(n - 1)
  }

  lemma {:induction false} ConcatMembers<T>(f: nat -> seq<T>, n: nat, x: T)
    requires x in Concat(f, n)
    ensures exists i :: 0 <= i < n && x in f(i)
  {
    if x !in f(n - 1) {
      ConcatMembers(f, n - 1, x);
    }
  }

  lemma {:induction false} ConcatQuiet(f: nat -> seq<Event>, n: nat)
    requires forall i :: 0 <= i < n ==> Replies(f(i)) == 0
    ensures Replies(Concat(f, n)) == 0
  {
    if n > 0 {
      ConcatQuiet(f, n - 1);
      CountsAppend(Concat(f, n - 1), f(n - 1));
    }
  }

  /** The events of relaying `due[..n]`: each row's, against the script the rows before it left. */
  function RelayEvents(due: seq<Published>, n: nat, script: seq<bool>, t: Tuning): seq<Event>
    requires n <= |due|
  {
    Concat((i: nat) => if i < |due| then RowEvents(due[i], RelayScript(script, i, t.maxRetryAttempts), t) else [], n)
  }

  /** Relaying n rows answers no message. */
  lemma RelayEventsQuiet(due: seq<Published>, n: nat, script: seq<bool>, t: Tuning)
    requires n <= |due|
    ensures Replies(RelayEvents(due, n, script, t)) == 0
  {
    forall i | 0 <= i < n {
      RowEventsCounts(due[i], RelayScript(script, i, t.maxRetryAttempts), t);
    }
    ConcatQuiet((i: nat) => if i < |due| then RowEvents(due[i], RelayScript(script, i, t.maxRetryAttempts), t) else [], n);
  }

  /** Every send of the relay carries the frame of one of the rows relayed. */
  lemma RelayEventsFrames(due: seq<Published>, n: nat, script: seq<bool>, t: Tuning, e: Event)
    requires n <= |due|
    requires e in RelayEvents(due, n, script, t) && e.SendCall?
    ensures exists i :: 0 <= i < n && e.frame == RecordFrame(due[i], NoOverrides)
  {
    var f := (i: nat) => if i < |due| then RowEvents(due[i], RelayScript(script, i, t.maxRetryAttempts), t) else [];
    ConcatMembers(f, n, e);
    var i :| 0 <= i < n && e in f(i);
    RowEventsFrames(due[i], RelayScript(script, i, t.maxRetryAttempts), t, e);
  }

  class Producer {
    const base: Base
    const db: Database
    const tuning: Tuning
    const listenerName: string

    constructor(base: Base, db: Database, tuning: Tuning)
      modifies base.env
      ensures this.base == base && this.db == db && this.tuning == tuning
      ensures listenerName == "producer-listener-" + base.env.uuid(old(base.env.uuids))
      ensures base.env.uuids == old(base.env.uuids) + 1 && base.env.trace == old(base.env.trace)
      ensures base.env.connected == old(base.env.connected) && base.env.cache == old(base.env.cache)
      ensures base.env.connectScript == old(base.env.connectScript) && base.env.sendScript == old(base.env.sendScript)
      ensures base.env.draws == old(base.env.draws)
    {
      this.base := base;
      this.db := db;
      this.tuning := tuning;
      var u := base.env.NewUuid();
      listenerName := "producer-listener-" + u;
    }

    /** `start`. */
    method Start()
      modifies base, base.env
      ensures base.env.connected
      ensures old(base.env.connected) ==> base.env.trace == old(base.env.trace)
      ensures !old(base.env.connected) ==>
        base.env.trace == old(base.env.trace) +
          ConnectEvents(old(base.env.connectScript), old(base.attempts), old(base.env.draws), base.env.uniform, base.maximumBackoff)
      ensures base.env.sendScript == old(base.env.sendScript) && base.env.cache == old(base.env.cache)
      ensures base.env.uuids == old(base.env.uuids)
    {
      base.Connect();
    }

    /** `stop`. */
    method Stop()
      modifies base.env
      ensures !base.env.connected && base.env.trace == old(base.env.trace) + [DisconnectCall]
      ensures base.env.sendScript == old(base.env.sendScript) && base.env.cache == old(base.env.cache)
      ensures base.env.connectScript == old(base.env.connectScript)
      ensures base.env.draws == old(base.env.draws) && base.env.uuids == old(base.env.uuids)
    {
      base.Disconnect();
    }

    /** `_remove_old_messages`: unless the cache flag is set, delete rows added before the cutoff and set the flag. */
    method RemoveOldMessages(now: Time)
      requires db.Valid()
      modifies db, base.env
      ensures db.Valid()
      ensures PublisherKey in old(base.env.cache) ==> db.published == old(db.published)
      ensures PublisherKey !in old(base.env.cache) ==>
        db.published == Kept(old(db.published), PublishedRow, AddedBefore(DaysAgo(now, tuning.daysToKeepData)))
      ensures base.env.cache == old(base.env.cache) + {PublisherKey}
      ensures db.received == old(db.received) && db.up == old(db.up)
      ensures base.env.trace == old(base.env.trace) && base.env.connected == old(base.env.connected)
      ensures base.env.connectScript == old(base.env.connectScript) && base.env.sendScript == old(base.env.sendScript)
      ensures base.env.draws == old(base.env.draws) && base.env.uuids == old(base.env.uuids)
    {
      if PublisherKey in base.env.cache {
        return;
      }
      db.DeletePublished(AddedBefore(DaysAgo(now, tuning.daysToKeepData)));
      base.env.CacheSet(PublisherKey);
    }

    /** The loop of `_send_with_retry`: send until the broker accepts or the limit of attempts is used up. */
    method RetryLoop(frame: Frame) returns (outcome: SendOutcome)
      modifies base.env
      ensures outcome == RetryOutcome(old(base.env.sendScript), tuning.maxRetryAttempts)
      ensures base.env.trace == old(base.env.trace) + RetryEvents(frame, old(base.env.sendScript), tuning)
      ensures base.env.sendScript == SendsLeft(old(base.env.sendScript), outcome)
      ensures base.env.connected == old(base.env.connected) && base.env.connectScript == old(base.env.connectScript)
      ensures base.env.cache == old(base.env.cache)
      ensures base.env.draws == old(base.env.draws) && base.env.uuids == old(base.env.uuids)
    {
      ghost var script := base.env.sendScript;
      ghost var start := base.env.trace;
      var attempts: nat := 0;
      while attempts < tuning.maxRetryAttempts
        invariant attempts <= |script| && (forall i :: 0 <= i < attempts ==> script[i])
        invariant attempts == 0 || attempts <= tuning.maxRetryAttempts
        invariant base.env.sendScript == script[attempts..]
        invariant base.env.trace == start + FailureEvents(frame, attempts, tuning)
        invariant base.env.connected == old(base.env.connected) && base.env.connectScript == old(base.env.connectScript)
        invariant base.env.cache == old(base.env.cache) && base.env.draws == old(base.env.draws)
        invariant base.env.uuids == old(base.env.uuids)
        decreases tuning.maxRetryAttempts - attempts
      {
        var refused := base.env.Send(frame);
        if !refused {
          SentAfter(frame, script, attempts, tuning);
          outcome := Sent(attempts);
          return;
        }
        assert script[attempts..][1..] == script[attempts + 1..];
        attempts := attempts + 1;
        if attempts == 3 {
          base.env.Emit(Sleep(tuning.pauseForRetry));
        } else if attempts > 3 {
          base.env.Emit(Sleep(tuning.waitRetry));
        }
      }
      ExceededAfter(frame, script, attempts, tuning);
      outcome := Exceeded(attempts);
    }

    /**
     * `_send_with_retry`: the retry loop, raising once the attempts are used
     * up; the sweep runs only after an accepted send.
     */
    method SendWithRetry(frame: Frame, now: Time) returns (outcome: SendOutcome)
      requires db.Valid()
      modifies db, base.env
      ensures outcome == RetryOutcome(old(base.env.sendScript), tuning.maxRetryAttempts)
      ensures base.env.trace == old(base.env.trace) + RetryEvents(frame, old(base.env.sendScript), tuning)
      ensures base.env.sendScript == SendsLeft(old(base.env.sendScript), outcome)
      ensures db.Valid()
      ensures outcome.Exceeded? ==> db.published == old(db.published) && base.env.cache == old(base.env.cache)
      ensures outcome.Sent? && PublisherKey in old(base.env.cache) ==> db.published == old(db.published)
      ensures outcome.Sent? && PublisherKey !in old(base.env.cache) ==>
        db.published == Kept(old(db.published), PublishedRow, AddedBefore(DaysAgo(now, tuning.daysToKeepData)))
      ensures outcome.Sent? ==> base.env.cache == old(base.env.cache) + {PublisherKey}
      ensures db.received == old(db.received) && db.up == old(db.up)
      ensures base.env.connected == old(base.env.connected) && base.env.connectScript == old(base.env.connectScript)
      ensures base.env.draws == old(base.env.draws) && base.env.uuids == old(base.env.uuids)
    {
      outcome := RetryLoop(frame);
      if outcome.Sent? {
        RemoveOldMessages(now);
      }
    }

    /** `send`: the record's frame, passed through the retry loop. */
    method Send(m: Published, o: Overrides, now: Time) returns (outcome: SendOutcome)
      requires db.Valid()
      modifies db, base.env
      ensures outcome == RetryOutcome(old(base.env.sendScript), tuning.maxRetryAttempts)
      ensures base.env.trace == old(base.env.trace) + RetryEvents(RecordFrame(m, o), old(base.env.sendScript), tuning)
      ensures base.env.sendScript == SendsLeft(old(base.env.sendScript), outcome)
      ensures db.Valid()
      ensures outcome.Exceeded? ==> db.published == old(db.published) && base.env.cache == old(base.env.cache)
      ensures outcome.Sent? && PublisherKey in old(base.env.cache) ==> db.published == old(db.published)
      ensures outcome.Sent? && PublisherKey !in old(base.env.cache) ==>
        db.published == Kept(old(db.published), PublishedRow, AddedBefore(DaysAgo(now, tuning.daysToKeepData)))
      ensures outcome.Sent? ==> base.env.cache == old(base.env.cache) + {PublisherKey}
      ensures db.received == old(db.received) && db.up == old(db.up)
      ensures base.env.connected == old(base.env.connected) && base.env.connectScript == old(base.env.connectScript)
      ensures base.env.draws == old(base.env.draws) && base.env.uuids == old(base.env.uuids)
    {
      outcome := SendWithRetry(RecordFrame(m, o), now);
    }

    /** `send_event`: an arbitrary body, passed through the retry loop. */
    method SendEvent(body: Json, destination: string, o: Overrides, now: Time) returns (outcome: SendOutcome)
      requires db.Valid()
      modifies db, base.env
      ensures outcome == RetryOutcome(old(base.env.sendScript), tuning.maxRetryAttempts)
      ensures base.env.trace == old(base.env.trace) + RetryEvents(EventFrame(body, destination, o), old(base.env.sendScript), tuning)
      ensures base.env.sendScript == SendsLeft(old(base.env.sendScript), outcome)
      ensures db.Valid()
      ensures outcome.Exceeded? ==> db.published == old(db.published) && base.env.cache == old(base.env.cache)
      ensures outcome.Sent? && PublisherKey in old(base.env.cache) ==> db.published == old(db.published)
      ensures outcome.Sent? && PublisherKey !in old(base.env.cache) ==>
        db.published == Kept(old(db.published), PublishedRow, AddedBefore(DaysAgo(now, tuning.daysToKeepData)))
      ensures outcome.Sent? ==> base.env.cache == old(base.env.cache) + {PublisherKey}
      ensures db.received == old(db.received) && db.up == old(db.up)
      ensures base.env.connected == old(base.env.connected) && base.env.connectScript == old(base.env.connectScript)
      ensures base.env.draws == old(base.env.draws) && base.env.uuids == old(base.env.uuids)
    {
      outcome := SendWithRetry(EventFrame(body, destination, o), now);
    }

    /** `_waiting`. */
    method Waiting()
      modifies base.env
      ensures base.env.Appended(Sleep(tuning.producerWaitingTime))
    {
      base.env.Emit(Sleep(tuning.producerWaitingTime));
    }

    /**
     * One row of the relay: log, send, record the outcome on the row and save
     * it into the outbox as the send's sweep left it.
     */
    method PublishOne(message: Published, now: Time, requestId: Option<string>) returns (outcome: SendOutcome)
      requires db.Valid()
      modifies db, base.env
      ensures db.Valid() && db.received == old(db.received) && db.up == old(db.up)
      ensures var pruned := Swept(old(db.published), outcome.Sent? && PublisherKey !in old(base.env.cache),
                                  DaysAgo(now, tuning.daysToKeepData));
        db.published == Upsert(pruned, PublishedRow, Stored(pruned, Transition(message, outcome, now), now, requestId)) &&
        base.env.cache == if outcome.Sent? then old(base.env.cache) + {PublisherKey} else old(base.env.cache)
      ensures outcome == RetryOutcome(old(base.env.sendScript), tuning.maxRetryAttempts) &&
              base.env.sendScript == SendsLeft(old(base.env.sendScript), outcome) &&
              base.env.trace == old(base.env.trace) + RowEvents(message, old(base.env.sendScript), tuning)
      ensures base.env.connected == old(base.env.connected) && base.env.connectScript == old(base.env.connectScript) &&
              base.env.draws == old(base.env.draws) && base.env.uuids == old(base.env.uuids)
    {
      ghost var t0, s0 := base.env.trace, base.env.sendScript;
      base.env.Emit(Log(Debug, MessageToPublish(message.body)));
      outcome := Send(message, NoOverrides, now);
      ghost var head, retry := [Log(Debug, MessageToPublish(message.body))], RetryEvents(RecordFrame(message, NoOverrides), s0, tuning);
      assert base.env.trace == t0 + head + retry;
      LogOutcome(message, outcome);
      AppendAssoc(t0, head, retry);
      AppendAssoc(t0, head + retry, OutcomeLogs(message, outcome));
      var saved := db.SavePublished(Transition(message, outcome, now), now, requestId);
    }

    /** The records `publish_message_from_database` logs once a row's send has ended. */
    method LogOutcome(message: Published, outcome: SendOutcome)
      modifies base.env
      ensures base.env.trace == old(base.env.trace) + OutcomeLogs(message, outcome) && base.env.OnlyTrace()
    {
      if outcome.Exceeded? {
        base.env.Emit(Log(Error, SendAttemptsExceeded));
        base.env.Emit(Log(Info, MessageNotPublished(message.id)));
      } else {
        base.env.Emit(Log(Info, MessagePublished(message.id)));
      }
    }

    /**
     * `publish_message_from_database`: try to send every due row once, mark
     * it SUCCEEDED or FAILED and save it, then wait. With nothing due it only
     * logs and waits; a database that cannot be queried is logged and waited on.
     */
    method PublishMessageFromDatabase(now: Time, requestId: Option<string>) returns (ghost outcomes: seq<SendOutcome>)
      requires db.Valid()
      modifies db, base, base.env
      ensures db.Valid()
      ensures !old(db.up) ==>
        base.env.trace == old(base.env.trace) + [Log(Info, StartingPublisher), Sleep(tuning.producerWaitingTime)] &&
        db.published == old(db.published) && base.env.sendScript == old(base.env.sendScript) &&
        base.env.connectScript == old(base.env.connectScript) && base.env.cache == old(base.env.cache)
      ensures old(db.up) && DueRows(old(db.published), now) == [] ==>
        base.env.trace == old(base.env.trace) + [Log(Debug, NoObjectsToPublish), Sleep(tuning.producerWaitingTime)] &&
        db.published == old(db.published) && base.env.sendScript == old(base.env.sendScript) &&
        base.env.connectScript == old(base.env.connectScript) && base.env.cache == old(base.env.cache)
      ensures var due := DueRows(old(db.published), now);
        old(db.up) && due != [] ==>
          |outcomes| == |due| && outcomes == RelayOutcomes(old(base.env.sendScript), |due|, tuning.maxRetryAttempts) &&
          base.env.sendScript == RelayScript(old(base.env.sendScript), |due|, tuning.maxRetryAttempts) &&
          Relayed(db.published, old(db.published), due, outcomes, now, DaysAgo(now, tuning.daysToKeepData), requestId,
                  old(base.env.cache)) &&
          base.env.cache == (if AnySent(outcomes) then old(base.env.cache) + {PublisherKey} else old(base.env.cache)) &&
          !base.env.connected &&
          base.env.trace == old(base.env.trace) + old(StartEvents()) +
            RelayEvents(due, |due|, old(base.env.sendScript), tuning) + [DisconnectCall] +
            [Sleep(tuning.producerWaitingTime)]
      ensures forall p :: p in old(db.published) && !IsDue(p, now) && p.added >= DaysAgo(now, tuning.daysToKeepData) ==>
        p in db.published
      ensures |old(base.env.trace)| <= |base.env.trace| && base.env.trace[..|old(base.env.trace)|] == old(base.env.trace)
      ensures db.received == old(db.received)
    {
      outcomes := [];
      if !db.up {
        Idle(Log(Info, StartingPublisher));
        return;
      }
      var due := DueRows(db.published, now);
      if due == [] {
        Idle(Log(Debug, NoObjectsToPublish));
        return;
      }
      ghost var rows0, cache0 := db.published, base.env.cache;
      outcomes := RelayAll(due, now, requestId);
      RelayedKeepsUntouched(db.published, rows0, due, outcomes, now, DaysAgo(now, tuning.daysToKeepData), requestId, cache0);
      Waiting();
    }

    /** A relay pass that publishes nothing: one log record, then `_waiting`. */
    method Idle(e: Event)
      modifies base.env
      ensures base.env.trace == old(base.env.trace) + [e, Sleep(tuning.producerWaitingTime)] && base.env.OnlyTrace()
    {
      base.env.Emit(e);
      Waiting();
    }

    /** The events of `start()` from the current state: none when already connected, else the connect loop's. */
    ghost function StartEvents(): seq<Event>
      reads base, base.env
    {
      if base.env.connected then []
      else ConnectEvents(base.env.connectScript, base.attempts, base.env.draws, base.env.uniform, base.maximumBackoff)
    }

    /** `start()`, the loop over the due rows, then `stop()`. */
    method RelayAll(due: seq<Published>, now: Time, requestId: Option<string>) returns (ghost outcomes: seq<SendOutcome>)
      requires db.Valid() && db.up && due == DueRows(db.published, now)
      modifies db, base, base.env
      ensures db.Valid() && db.received == old(db.received) && db.up
      ensures |outcomes| == |due| && outcomes == RelayOutcomes(old(base.env.sendScript), |due|, tuning.maxRetryAttempts)
      ensures base.env.sendScript == RelayScript(old(base.env.sendScript), |due|, tuning.maxRetryAttempts)
      ensures Relayed(db.published, old(db.published), due, outcomes, now, DaysAgo(now, tuning.daysToKeepData), requestId,
                      old(base.env.cache))
      ensures base.env.cache == if AnySent(outcomes) then old(base.env.cache) + {PublisherKey} else old(base.env.cache)
      ensures !base.env.connected
      ensures base.env.trace ==
        old(base.env.trace) + old(StartEvents()) + RelayEvents(due, |due|, old(base.env.sendScript), tuning) + [DisconnectCall]
    {
      outcomes := [];
      ghost var rows0 := db.published;
      ghost var cutoff := DaysAgo(now, tuning.daysToKeepData);
      ghost var script0, cache0 := base.env.sendScript, base.env.cache;
      DueRowsUnique(rows0, now);
      forall j | 0 <= j < |due|
        ensures !due[j].adding
      {
        DueRowsMembers(rows0, now, due[j]);
      }
      Start();
      ghost var trace1 := base.env.trace;
      var i := 0;
      while i < |due|
        invariant 0 <= i <= |due| && |outcomes| == i
        invariant db.Valid() && db.received == old(db.received) && db.up
        invariant Relayed(db.published, rows0, due, outcomes, now, cutoff, requestId, cache0)
        invariant base.env.cache == if AnySent(outcomes) then cache0 + {PublisherKey} else cache0
        invariant Relaying(base.env.sendScript, base.env.trace, due, outcomes, script0, trace1, tuning)
      {
        var outcome := RelayStep(rows0, due, i, outcomes, now, cutoff, requestId, script0, trace1, cache0);
        outcomes := outcomes + [outcome];
        i := i + 1;
      }
      Stop();
    }

    /** One pass of the relay loop: publish `due[i]`, the row after those already relayed. */
    method RelayStep(ghost rows0: seq<Published>, due: seq<Published>, i: nat, ghost outcomes: seq<SendOutcome>,
                     now: Time, ghost cutoff: Time, requestId: Option<string>, ghost script: seq<bool>,
                     ghost start: seq<Event>, ghost cache0: set<CacheKey>) returns (outcome: SendOutcome)
      requires db.Valid() && i == |outcomes| < |due| && cutoff == DaysAgo(now, tuning.daysToKeepData)
      requires UniqueIds(rows0, PublishedRow) && due == DueRows(rows0, now)
      requires UniqueIds(due, PublishedRow) && forall j :: 0 <= j < |due| ==> !due[j].adding
      requires Relayed(db.published, rows0, due, outcomes, now, cutoff, requestId, cache0)
      requires base.env.cache == if AnySent(outcomes) then cache0 + {PublisherKey} else cache0
      requires Relaying(base.env.sendScript, base.env.trace, due, outcomes, script, start, tuning)
      modifies db, base.env
      ensures db.Valid() && db.received == old(db.received) && db.up == old(db.up)
      ensures Relayed(db.published, rows0, due, outcomes + [outcome], now, cutoff, requestId, cache0)
      ensures base.env.cache == if AnySent(outcomes + [outcome]) then cache0 + {PublisherKey} else cache0
      ensures Relaying(base.env.sendScript, base.env.trace, due, outcomes + [outcome], script, start, tuning)
    {
      ghost var before, t0, s0, c0 := db.published, base.env.trace, base.env.sendScript, base.env.cache;
      outcome := PublishOne(due[i], now, requestId);
      RelayingStep(due, outcomes, outcome, script, start, s0, t0, tuning);
      AnySentSnoc(outcomes, outcome);
      ghost var sweep := PublisherKey !in cache0 && outcome.Sent? && !AnySent(outcomes);
      assert (outcome.Sent? && PublisherKey !in c0) == sweep;
      RelayedStep(rows0, due, before, db.published, outcomes, outcome, now, cutoff, requestId, cache0);
    }
  }

  /** Some send of the relay so far was accepted: from the first one on, `_remove_old_messages` has run. */
  predicate AnySent(outcomes: seq<SendOutcome>) {
    exists k :: 0 <= k < |outcomes| && outcomes[k].Sent?
  }

  /** The outbox after the sweep of `_remove_old_messages` when `sweep` holds, and as it was otherwise. */
  function Swept(rows: seq<Published>, sweep: bool, cutoff: Time): seq<Published> {
    if sweep then Kept(rows, PublishedRow, AddedBefore(cutoff)) else rows
  }

  /** The row the relay saves for `m` once its send ended with `o`, as the save override prepares it. */
  function SavedRow(m: Published, o: SendOutcome, now: Time, requestId: Option<string>): Published {
    SavedForm(Transition(m, o, now), now, requestId)
  }

  /** That row re-inserted after the sweep deleted it: the INSERT stamps `added` with now. */
  function Reinserted(m: Published, o: SendOutcome, now: Time, requestId: Option<string>): Published {
    SavedRow(m, o, now, requestId).(added := now)
  }

  /**
   * The relay has swept the outbox: the cache flag was unset when it began
   * (`PublisherKey !in cache0`) and some send was accepted, so the sweep ran at the first one.
   */
  predicate HasSwept(cache0: set<CacheKey>, outcomes: seq<SendOutcome>) {
    PublisherKey !in cache0 && AnySent(outcomes)
  }

  /**
   * Where the relayed row `due[j]` is. It is saved with its outcome, unless
   * the sweep took it: when the sweep ran before its save (at its own send or
   * an earlier one), the save found no row with its key and re-inserted it
   * with `added` stamped now; when the sweep ran later, the saved row was old
   * enough to be deleted with the rest.
   */
  ghost predicate RowRelayed(published: seq<Published>, due: seq<Published>, outcomes: seq<SendOutcome>, j: nat,
                             now: Time, cutoff: Time, requestId: Option<string>, cache0: set<CacheKey>)
    requires j < |outcomes| <= |due|
  {
    var q := SavedRow(due[j], outcomes[j], now, requestId);
    if !(HasSwept(cache0, outcomes) && due[j].added < cutoff) then q in published
    else if AnySent(outcomes[..j + 1]) then Reinserted(due[j], outcomes[j], now, requestId) in published
    else due[j].id !in Ids(published, PublishedRow)
  }

  /** A row of `rows0` the relay has not reached: it is where it was, unless the sweep took it. */
  ghost predicate RowPending(published: seq<Published>, p: Published, outcomes: seq<SendOutcome>, cutoff: Time,
                             cache0: set<CacheKey>)
  {
    if HasSwept(cache0, outcomes) && p.added < cutoff then p.id !in Ids(published, PublishedRow) else p in published
  }

  /**
   * The outbox after the rows `due[..|outcomes|]` of the outbox `rows0` were
   * relayed, from the cache `cache0`: every
   * relayed row is where `RowRelayed` says, every other row of `rows0` where
   * `RowPending` says, and there is no other row.
   */
  ghost predicate Relayed(published: seq<Published>, rows0: seq<Published>, due: seq<Published>,
                          outcomes: seq<SendOutcome>, now: Time, cutoff: Time, requestId: Option<string>, cache0: set<CacheKey>)
    requires |outcomes| <= |due|
  {
    (forall j :: 0 <= j < |outcomes| ==> RowRelayed(published, due, outcomes, j, now, cutoff, requestId, cache0)) &&
    (forall p :: p in rows0 && p !in due[..|outcomes|] ==> RowPending(published, p, outcomes, cutoff, cache0)) &&
    OnlyRelayedRows(published, rows0, due, outcomes, now, requestId)
  }

  /** Every row of the outbox is `Known`. */
  ghost predicate OnlyRelayedRows(published: seq<Published>, rows0: seq<Published>, due: seq<Published>,
                                  outcomes: seq<SendOutcome>, now: Time, requestId: Option<string>)
    requires |outcomes| <= |due|
  {
    forall p :: p in published ==> Known(p, rows0, due, outcomes, now, requestId)
  }

  /** `p` is a row of `rows0` the relay has not reached, or one the relay saved. */
  ghost predicate Known(p: Published, rows0: seq<Published>, due: seq<Published>, outcomes: seq<SendOutcome>,
                        now: Time, requestId: Option<string>)
    requires |outcomes| <= |due|
  {
    (p in rows0 && p !in due[..|outcomes|]) ||
    exists j :: 0 <= j < |outcomes| &&
      (p == SavedRow(due[j], outcomes[j], now, requestId) || p == Reinserted(due[j], outcomes[j], now, requestId))
  }

  /**
   * After the rows `due[..|outcomes|]` were relayed from the send script
   * `script` and the trace `start`: the outcomes, the script `left` and the
   * trace are those of `RelayOutcomes`, `RelayScript` and `RelayEvents`.
   */
  ghost predicate Relaying(left: seq<bool>, trace: seq<Event>, due: seq<Published>, outcomes: seq<SendOutcome>,
                           script: seq<bool>, start: seq<Event>, t: Tuning)
    requires |outcomes| <= |due|
  {
    outcomes == RelayOutcomes(script, |outcomes|, t.maxRetryAttempts) &&
    left == RelayScript(script, |outcomes|, t.maxRetryAttempts) &&
    trace == start + RelayEvents(due, |outcomes|, script, t)
  }

  /** Relaying one more row adds its outcome and its events, and leaves the script its send left. */
  lemma RelayingStep(due: seq<Published>, outcomes: seq<SendOutcome>, outcome: SendOutcome, script: seq<bool>,
                     start: seq<Event>, left: seq<bool>, trace: seq<Event>, t: Tuning)
    requires |outcomes| < |due| && Relaying(left, trace, due, outcomes, script, start, t)
    requires outcome == RetryOutcome(left, t.maxRetryAttempts)
    ensures Relaying(SendsLeft(left, outcome), trace + RowEvents(due[|outcomes|], left, t), due, outcomes + [outcome],
                     script, start, t)
  {
    RelayOutcomesSnoc(script, |outcomes|, t.maxRetryAttempts);
    RelayEventsSnoc(due, |outcomes|, script, start, t);
  }

  lemma RelayOutcomesSnoc(script: seq<bool>, n: nat, m: int)
    ensures RelayOutcomes(script, n + 1, m) == RelayOutcomes(script, n, m) + [RetryOutcome(RelayScript(script, n, m), m)]
  {
  }

  /** There is one outcome per row, and the i-th is the retry loop's against the script left by the rows before it. */
  lemma RelayOutcomesMeaning(script: seq<bool>, n: nat, m: int)
    ensures |RelayOutcomes(script, n, m)| == n
    ensures forall i :: 0 <= i < n ==> RelayOutcomes(script, n, m)[i] == RetryOutcome(RelayScript(script, i, m), m)
  {
    PrefixAt((i: nat) => RetryOutcome(RelayScript(script, i, m), m), n);
  }

  lemma RelayEventsSnoc(due: seq<Published>, n: nat, script: seq<bool>, start: seq<Event>, t: Tuning)
    requires n < |due|
    ensures start + RelayEvents(due, n + 1, script, t) ==
      start + RelayEvents(due, n, script, t) + RowEvents(due[n], RelayScript(script, n, t.maxRetryAttempts), t)
  {
    AppendAssoc(start, RelayEvents(due, n, script, t), RowEvents(due[n], RelayScript(script, n, t.maxRetryAttempts), t));
  }

  lemma AppendAssoc<T>(a: seq<T>, b: seq<T>, c: seq<T>)
    ensures a + b + c == a + (b + c)
  {
  }

  lemma AnySentSnoc(outcomes: seq<SendOutcome>, o: SendOutcome)
    ensures AnySent(outcomes + [o]) <==> AnySent(outcomes) || o.Sent?
  {
    var outs := outcomes + [o];
    if AnySent(outs) {
      var k :| 0 <= k < |outs| && outs[k].Sent?;
      if k < |outcomes| {
        assert outcomes[k] == outs[k];
      }
    }
    if AnySent(outcomes) {
      var k :| 0 <= k < |outcomes| && outcomes[k].Sent?;
      assert outs[k] == outcomes[k];
    }
    if o.Sent? {
      assert outs[|outcomes|] == o;
    }
  }

  lemma AnySentPrefix(outcomes: seq<SendOutcome>, m: nat)
    requires m <= |outcomes|
    ensures AnySent(outcomes[..m]) ==> AnySent(outcomes)
  {
    if AnySent(outcomes[..m]) {
      var k :| 0 <= k < m && outcomes[..m][k].Sent?;
      assert outcomes[k] == outcomes[..m][k];
    }
  }

  /**
   * Relaying one more row, whose send ended with `outcome` and swept the
   * outbox when the flag was still unset, keeps `Relayed`.
   */
  lemma RelayedStep(rows0: seq<Published>, due: seq<Published>, before: seq<Published>, after: seq<Published>,
                    outcomes: seq<SendOutcome>, outcome: SendOutcome, now: Time, cutoff: Time, requestId: Option<string>,
                    cache0: set<CacheKey>)
    requires UniqueIds(rows0, PublishedRow) && due == DueRows(rows0, now) && |outcomes| < |due|
    requires UniqueIds(due, PublishedRow) && (forall j :: 0 <= j < |due| ==> !due[j].adding)
    requires UniqueIds(before, PublishedRow) && UniqueIds(after, PublishedRow)
    requires var pruned := Swept(before, PublisherKey !in cache0 && outcome.Sent? && !AnySent(outcomes), cutoff);
      after == Upsert(pruned, PublishedRow, Stored(pruned, Transition(due[|outcomes|], outcome, now), now, requestId))
    requires Relayed(before, rows0, due, outcomes, now, cutoff, requestId, cache0)
    ensures Relayed(after, rows0, due, outcomes + [outcome], now, cutoff, requestId, cache0)
  {
    var n, outs := |outcomes|, outcomes + [outcome];
    DueRowsMembers(rows0, now, due[n]);
    assert due[n] !in due[..n] by {
      if due[n] in due[..n] {
        var j :| 0 <= j < n && due[..n][j] == due[n];
        UniqueIdsAt(due, PublishedRow, j, n);
      }
    }
    forall j | 0 <= j < n + 1
      ensures RowRelayed(after, due, outs, j, now, cutoff, requestId, cache0)
    {
      if j < n {
        RowRelayedStep(due, before, after, outcomes, outcome, j, now, cutoff, requestId, cache0);
      } else {
        RowRelayedNew(due, before, after, outcomes, outcome, now, cutoff, requestId, cache0);
      }
    }
    forall p | p in rows0 && p !in due[..n + 1]
      ensures RowPending(after, p, outs, cutoff, cache0)
    {
      RowPendingStep(rows0, due, before, after, outcomes, outcome, p, now, cutoff, requestId, cache0);
    }
    var sweep := PublisherKey !in cache0 && outcome.Sent? && !AnySent(outcomes);
    var stored := Stored(Swept(before, sweep, cutoff), Transition(due[n], outcome, now), now, requestId);
    forall p | p in after
      ensures Known(p, rows0, due, outs, now, requestId)
    {
      OnlyRelayedStep(rows0, due, before, after, stored, sweep, outcomes, outcome, p, now, cutoff, requestId);
    }
  }

  /** A row relayed earlier stays where it was, or goes when this step's sweep takes it. */
  lemma RowRelayedStep(due: seq<Published>, before: seq<Published>, after: seq<Published>, outcomes: seq<SendOutcome>,
                       outcome: SendOutcome, j: nat, now: Time, cutoff: Time, requestId: Option<string>, cache0: set<CacheKey>)
    requires j < |outcomes| < |due| && UniqueIds(due, PublishedRow) && !due[j].adding
    requires UniqueIds(before, PublishedRow)
    requires var pruned := Swept(before, PublisherKey !in cache0 && outcome.Sent? && !AnySent(outcomes), cutoff);
      after == Upsert(pruned, PublishedRow, Stored(pruned, Transition(due[|outcomes|], outcome, now), now, requestId))
    requires RowRelayed(before, due, outcomes, j, now, cutoff, requestId, cache0)
    ensures RowRelayed(after, due, outcomes + [outcome], j, now, cutoff, requestId, cache0)
  {
    var n, outs := |outcomes|, outcomes + [outcome];
    var sweep := PublisherKey !in cache0 && outcome.Sent? && !AnySent(outcomes);
    var pruned := Swept(before, sweep, cutoff);
    var stored := Stored(pruned, Transition(due[n], outcome, now), now, requestId);
    var q := SavedRow(due[j], outcomes[j], now, requestId);
    assert outs[j] == outcomes[j] && outs[..j + 1] == outcomes[..j + 1];
    AnySentSnoc(outcomes, outcome);
    AnySentPrefix(outcomes, j + 1);
    UniqueIdsAt(due, PublishedRow, j, n);
    if !(HasSwept(cache0, outcomes) && due[j].added < cutoff) {
      StepKeeps(before, after, stored, sweep, cutoff, q);
    } else if AnySent(outcomes[..j + 1]) {
      StepKeeps(before, after, stored, sweep, cutoff, Reinserted(due[j], outcomes[j], now, requestId));
    } else {
      StepKeyOut(before, after, stored, sweep, cutoff, due[j].id);
    }
  }

  /** The row relayed in this step is saved, re-inserted with `added` now when the sweep took it first. */
  lemma RowRelayedNew(due: seq<Published>, before: seq<Published>, after: seq<Published>, outcomes: seq<SendOutcome>,
                      outcome: SendOutcome, now: Time, cutoff: Time, requestId: Option<string>, cache0: set<CacheKey>)
    requires |outcomes| < |due| && !due[|outcomes|].adding
    requires UniqueIds(before, PublishedRow)
    requires var pruned := Swept(before, PublisherKey !in cache0 && outcome.Sent? && !AnySent(outcomes), cutoff);
      after == Upsert(pruned, PublishedRow, Stored(pruned, Transition(due[|outcomes|], outcome, now), now, requestId))
    requires RowPending(before, due[|outcomes|], outcomes, cutoff, cache0)
    ensures RowRelayed(after, due, outcomes + [outcome], |outcomes|, now, cutoff, requestId, cache0)
  {
    var n, outs := |outcomes|, outcomes + [outcome];
    var sweep := PublisherKey !in cache0 && outcome.Sent? && !AnySent(outcomes);
    var pruned := Swept(before, sweep, cutoff);
    var stored := Stored(pruned, Transition(due[n], outcome, now), now, requestId);
    assert outs[n] == outcome && outs[..n + 1] == outs;
    AnySentSnoc(outcomes, outcome);
    UpsertMembers(pruned, PublishedRow, stored, stored);
    KeptIds(before, PublishedRow, AddedBefore(cutoff));
    if !(HasSwept(cache0, outcomes) && due[n].added < cutoff) {
      KeptMembers(before, PublishedRow, AddedBefore(cutoff), due[n]);
      if sweep && due[n].added < cutoff {
        KeptDropsKey(before, PublishedRow, AddedBefore(cutoff), due[n]);
      } else {
        IdsMember(pruned, PublishedRow, due[n]);
      }
    }
  }

  /** A row the relay has not reached stays where it was, or goes when this step's sweep takes it. */
  lemma RowPendingStep(rows0: seq<Published>, due: seq<Published>, before: seq<Published>, after: seq<Published>,
                       outcomes: seq<SendOutcome>, outcome: SendOutcome, p: Published, now: Time, cutoff: Time,
                       requestId: Option<string>, cache0: set<CacheKey>)
    requires UniqueIds(rows0, PublishedRow) && due == DueRows(rows0, now) && |outcomes| < |due|
    requires UniqueIds(before, PublishedRow)
    requires var pruned := Swept(before, PublisherKey !in cache0 && outcome.Sent? && !AnySent(outcomes), cutoff);
      after == Upsert(pruned, PublishedRow, Stored(pruned, Transition(due[|outcomes|], outcome, now), now, requestId))
    requires p in rows0 && p !in due[..|outcomes| + 1]
    requires forall x :: x in rows0 && x !in due[..|outcomes|] ==> RowPending(before, x, outcomes, cutoff, cache0)
    ensures RowPending(after, p, outcomes + [outcome], cutoff, cache0)
  {
    var n := |outcomes|;
    var sweep := PublisherKey !in cache0 && outcome.Sent? && !AnySent(outcomes);
    var pruned := Swept(before, sweep, cutoff);
    var stored := Stored(pruned, Transition(due[n], outcome, now), now, requestId);
    NotReached(due, n, p);
    DueRowsMembers(rows0, now, due[n]);
    if p.id == due[n].id {
      UniqueIdsSame(rows0, PublishedRow, p, due[n]);
    }
    assert RowPending(before, p, outcomes, cutoff, cache0);
    AnySentSnoc(outcomes, outcome);
    if HasSwept(cache0, outcomes) && p.added < cutoff {
      StepKeyOut(before, after, stored, sweep, cutoff, p.id);
    } else {
      StepKeeps(before, after, stored, sweep, cutoff, p);
    }
  }

  /**
   * One relay step on the outbox: the sweep when `sweep` holds, then the save
   * of `stored`. A row with another key stays, unless the sweep takes it and
   * with it its key.
   */
  lemma StepKeeps(before: seq<Published>, after: seq<Published>, stored: Published, sweep: bool, cutoff: Time,
                  x: Published)
    requires UniqueIds(before, PublishedRow) && after == Upsert(Swept(before, sweep, cutoff), PublishedRow, stored)
    requires x in before && x.id != stored.id
    ensures if sweep && x.added < cutoff then x.id !in Ids(after, PublishedRow) else x in after
  {
    var pruned := Swept(before, sweep, cutoff);
    KeptIds(before, PublishedRow, AddedBefore(cutoff));
    UpsertIds(pruned, PublishedRow, stored);
    KeptMembers(before, PublishedRow, AddedBefore(cutoff), x);
    if sweep && x.added < cutoff {
      KeptDropsKey(before, PublishedRow, AddedBefore(cutoff), x);
    } else {
      UpsertMembers(pruned, PublishedRow, stored, x);
    }
  }

  /** A key neither in the outbox nor saved in this step stays out of it. */
  lemma StepKeyOut(before: seq<Published>, after: seq<Published>, stored: Published, sweep: bool, cutoff: Time,
                   k: string)
    requires after == Upsert(Swept(before, sweep, cutoff), PublishedRow, stored)
    requires k !in Ids(before, PublishedRow) && k != stored.id
    ensures k !in Ids(after, PublishedRow)
  {
    KeptIds(before, PublishedRow, AddedBefore(cutoff));
    UpsertIds(Swept(before, sweep, cutoff), PublishedRow, stored);
  }

  /** After one relay step every row of the outbox was there before or is the one saved. */
  lemma StepMembers(before: seq<Published>, after: seq<Published>, stored: Published, sweep: bool, cutoff: Time,
                    x: Published)
    requires after == Upsert(Swept(before, sweep, cutoff), PublishedRow, stored)
    ensures stored in after
    ensures x in after ==> x == stored || x in before
  {
    var pruned := Swept(before, sweep, cutoff);
    UpsertMembers(pruned, PublishedRow, stored, x);
    KeptMembers(before, PublishedRow, AddedBefore(cutoff), x);
  }

  /** After one more step the outbox still holds only rows not yet reached and rows the relay saved. */
  lemma OnlyRelayedStep(rows0: seq<Published>, due: seq<Published>, before: seq<Published>, after: seq<Published>,
                        stored: Published, sweep: bool, outcomes: seq<SendOutcome>, outcome: SendOutcome, p: Published,
                        now: Time, cutoff: Time, requestId: Option<string>)
    requires |outcomes| < |due| && UniqueIds(after, PublishedRow)
    requires after == Upsert(Swept(before, sweep, cutoff), PublishedRow, stored) && stored.id == due[|outcomes|].id
    requires stored == SavedRow(due[|outcomes|], outcome, now, requestId) ||
             stored == Reinserted(due[|outcomes|], outcome, now, requestId)
    requires OnlyRelayedRows(before, rows0, due, outcomes, now, requestId)
    requires p in after
    ensures Known(p, rows0, due, outcomes + [outcome], now, requestId)
  {
    StepMembers(before, after, stored, sweep, cutoff, p);
    if p == stored {
      KnownSaved(rows0, due, outcomes, outcome, p, now, requestId);
    } else {
      assert Known(p, rows0, due, outcomes, now, requestId);
      if p == due[|outcomes|] {
        UniqueIdsSame(after, PublishedRow, p, stored);
      }
      KnownStays(rows0, due, outcomes, outcome, p, now, requestId);
    }
  }

  /** The row saved in this step is known. */
  lemma KnownSaved(rows0: seq<Published>, due: seq<Published>, outcomes: seq<SendOutcome>, outcome: SendOutcome,
                   p: Published, now: Time, requestId: Option<string>)
    requires |outcomes| < |due|
    requires p == SavedRow(due[|outcomes|], outcome, now, requestId) ||
             p == Reinserted(due[|outcomes|], outcome, now, requestId)
    ensures Known(p, rows0, due, outcomes + [outcome], now, requestId)
  {
    var outs := outcomes + [outcome];
    assert outs[|outcomes|] == outcome;
  }

  /** A known row other than the next due row stays known after one more step. */
  lemma KnownStays(rows0: seq<Published>, due: seq<Published>, outcomes: seq<SendOutcome>, outcome: SendOutcome,
                   p: Published, now: Time, requestId: Option<string>)
    requires |outcomes| < |due| && p != due[|outcomes|]
    requires Known(p, rows0, due, outcomes, now, requestId)
    ensures Known(p, rows0, due, outcomes + [outcome], now, requestId)
  {
    var n, outs := |outcomes|, outcomes + [outcome];
    NotReached(due, n, p);
    if !(p in rows0 && p !in due[..n]) {
      var j :| 0 <= j < n &&
        (p == SavedRow(due[j], outcomes[j], now, requestId) || p == Reinserted(due[j], outcomes[j], now, requestId));
      assert outs[j] == outcomes[j];
    }
  }

  /** A row is not among the first n + 1 due rows exactly when it is not among the first n and is not the next. */
  lemma NotReached(due: seq<Published>, n: nat, p: Published)
    requires n < |due|
    ensures p !in due[..n + 1] <==> p !in due[..n] && p != due[n]
  {
    assert due[..n + 1] == due[..n] + [due[n]];
  }

  /** At the end of the relay every row that was neither due nor old enough to be swept is still there. */
  lemma RelayedKeepsUntouched(published: seq<Published>, rows0: seq<Published>, due: seq<Published>,
                              outcomes: seq<SendOutcome>, now: Time, cutoff: Time, requestId: Option<string>, cache0: set<CacheKey>)
    requires due == DueRows(rows0, now) && |outcomes| == |due|
    requires Relayed(published, rows0, due, outcomes, now, cutoff, requestId, cache0)
    ensures forall p :: p in rows0 && !IsDue(p, now) && p.added >= cutoff ==> p in published
  {
    forall p | p in rows0 && !IsDue(p, now) && p.added >= cutoff
      ensures p in published
    {
      DueRowsMembers(rows0, now, p);
      assert due[..|outcomes|] == due;
    }
  }
}

/**
 * django_outbox_pattern/bases.py: the connect loop shared by the producer and
 * the consumer, with its exponential reconnect backoff.
 */
module Bases {
  import opened Values
  import opened Dicts
  import opened World

  /**
   * The settings the producer and the consumer read. Only the first four
   * have entries in the `DEFAULTS` of django_outbox_pattern/settings.py;
   * the others are read by name and are therefore supplied by the project.
   */
  datatype Tuning = Tuning(
    maximumBackoff: real,          // DEFAULT_MAXIMUM_BACKOFF
    maxRetryAttempts: int,         // DEFAULT_MAXIMUM_RETRY_ATTEMPTS
    pauseForRetry: real,           // DEFAULT_PAUSE_FOR_RETRY
    waitRetry: real,               // DEFAULT_WAIT_RETRY
    queueHeaders: Dict<HVal>,      // DEFAULT_STOMP_QUEUE_HEADERS
    daysToKeepData: int,           // DAYS_TO_KEEP_DATA
    producerWaitingTime: real,     // DEFAULT_PRODUCER_WAITING_TIME
    exclusiveQueue: HVal)          // DAFAULT_EXCLUSIVE_QUEUE

  /** The shipped defaults, completed with the three project-supplied settings. */
  function DefaultTuning(daysToKeepData: int, producerWaitingTime: real, exclusiveQueue: HVal): Tuning {
    Tuning(3600.0, 50, 240.0, 60.0,
           [("durable", HStr("true")), ("auto-delete", HStr("false")), ("prefetch-count", HStr("1"))],
           daysToKeepData, producerWaitingTime, exclusiveQueue)
  }

  function Pow2(n: nat): nat {
    if n == 0 then 1 else 2 * Pow2(n - 1)
  }

  function MinReal(a: real, b: real): real {
    if a <= b then a else b
  }

  /** `_exponential_backoff`: `min(2 ** attempts + jitter, maximum)`. */
  function Backoff(attempts: nat, jitter: real, maximum: real): (d: real)
    ensures d <= maximum
    ensures d <= Pow2(attempts) as real + jitter
    ensures d == maximum || d == Pow2(attempts) as real + jitter
  {
    MinReal(Pow2(attempts) as real + jitter, maximum)
  }

  /** With a jitter from `uniform(0, 1)` the delay lies between `min(2^a, max)` and `min(2^a + 1, max)`. */
  lemma BackoffWithin(attempts: nat, jitter: real, maximum: real)
    requires 0.0 <= jitter <= 1.0
    ensures MinReal(Pow2(attempts) as real, maximum) <= Backoff(attempts, jitter, maximum)
    ensures Backoff(attempts, jitter, maximum) <= MinReal(Pow2(attempts) as real + 1.0, maximum)
  {
  }

  lemma {:induction false} Pow2Grows(a: nat, b: nat)
    requires a < b
    ensures Pow2(a) + 1 <= Pow2(b)
    decreases b
  {
    if b - 1 > a {
      Pow2Grows(a, b - 1);
    }
    assert Pow2(b) == 2 * Pow2(b - 1);
    Pow2Positive(b - 1);
  }

  lemma {:induction false} Pow2Positive(n: nat)
    ensures Pow2(n) >= 1
  {
    if n > 0 {
      Pow2Positive(n - 1);
    }
  }

  /** More attempts never give a shorter delay, whatever the two jitters are. */
  lemma BackoffMonotone(a: nat, b: nat, ja: real, jb: real, maximum: real)
    requires a < b
    requires 0.0 <= ja <= 1.0 && 0.0 <= jb <= 1.0
    ensures Backoff(a, ja, maximum) <= Backoff(b, jb, maximum)
  {
    Pow2Grows(a, b);
  }

  /**
   * The events of `connect()` started while disconnected: one refused call,
   * a debug record and a sleep per `StompException`, then the accepted call.
   */
  function ConnectEvents(s: seq<bool>, attempts: nat, draws: nat, uniform: nat -> real, maximum: real): seq<Event>
    decreases |s|
  {
    if s != [] && s[0] then
      var seconds := Backoff(attempts + 1, uniform(draws), maximum);
      RefusalEvents(seconds) + ConnectEvents(s[1..], attempts + 1, draws + 1, uniform, maximum)
    else
      [ConnectCall(false)]
  }

  /** The events of one refused connect call and the `_wait` after it. */
  function RefusalEvents(seconds: real): seq<Event> {
    [ConnectCall(true), Log(Debug, WaitingToReconnect(seconds)), Sleep(seconds)]
  }

  lemma RefusalCounts(seconds: real)
    ensures Sleeps(RefusalEvents(seconds)) == [seconds]
    ensures Sends(RefusalEvents(seconds)) == 0 && Replies(RefusalEvents(seconds)) == 0
  {
    var a, b, c := ConnectCall(true), Log(Debug, WaitingToReconnect(seconds)), Sleep(seconds);
    assert RefusalEvents(seconds) == [a] + [b] + [c];
    CountsOne(a);
    CountsOne(b);
    CountsOne(c);
    CountsAppend([a], [b]);
    CountsAppend([a] + [b], [c]);
  }

  /** `connect()` makes one call per refusal plus the accepted one, which comes last. */
  lemma {:induction false} ConnectEventsLength(s: seq<bool>, attempts: nat, draws: nat, uniform: nat -> real, maximum: real)
    ensures var t := ConnectEvents(s, attempts, draws, uniform, maximum);
      |t| == 3 * Leading(s) + 1 && t[|t| - 1] == ConnectCall(false)
    decreases |s|
  {
    if s != [] && s[0] {
      ConnectEventsLength(s[1..], attempts + 1, draws + 1, uniform, maximum);
    }
  }

  /**
   * `connect()` waits exactly once per refused call, and the i-th wait uses
   * exponent `attempts + 1 + i`: the counter is raised before the delay is computed.
   */
  lemma {:induction false} ConnectSleeps(s: seq<bool>, attempts: nat, draws: nat, uniform: nat -> real, maximum: real)
    ensures var t := ConnectEvents(s, attempts, draws, uniform, maximum);
      |Sleeps(t)| == Leading(s) &&
      (forall i :: 0 <= i < Leading(s) ==> Sleeps(t)[i] == Backoff(attempts + 1 + i, uniform(draws + i), maximum))
    decreases |s|
  {
    if s != [] && s[0] {
      var seconds := Backoff(attempts + 1, uniform(draws), maximum);
      ConnectSleeps(s[1..], attempts + 1, draws + 1, uniform, maximum);
      RefusalCounts(seconds);
      CountsAppend(RefusalEvents(seconds), ConnectEvents(s[1..], attempts + 1, draws + 1, uniform, maximum));
    }
  }

  /** Connecting sends no frame and acknowledges nothing. */
  lemma {:induction false} ConnectQuiet(s: seq<bool>, attempts: nat, draws: nat, uniform: nat -> real, maximum: real)
    ensures var t := ConnectEvents(s, attempts, draws, uniform, maximum);
      Sends(t) == 0 && Replies(t) == 0
    decreases |s|
  {
    if s != [] && s[0] {
      var seconds := Backoff(attempts + 1, uniform(draws), maximum);
      ConnectQuiet(s[1..], attempts + 1, draws + 1, uniform, maximum);
      RefusalCounts(seconds);
      CountsAppend(RefusalEvents(seconds), ConnectEvents(s[1..], attempts + 1, draws + 1, uniform, maximum));
    } else {
      assert ConnectEvents(s, attempts, draws, uniform, maximum)[1..] == [];
    }
  }

  /** The connect script left once `connect()` has been accepted. */
  function AfterConnect(s: seq<bool>): seq<bool> {
    if Leading(s) < |s| then s[Leading(s) + 1..] else []
  }

  /** One call of `connect()` on the script `s`: a refusal, or the accepted call that ends the events. */
  lemma ConnectUnfold(s: seq<bool>, attempts: nat, draws: nat, uniform: nat -> real, maximum: real)
    ensures s != [] && s[0] ==>
      ConnectEvents(s, attempts, draws, uniform, maximum) ==
        RefusalEvents(Backoff(attempts + 1, uniform(draws), maximum)) +
        ConnectEvents(Tail(s), attempts + 1, draws + 1, uniform, maximum) &&
      Leading(s) == 1 + Leading(Tail(s)) && AfterConnect(s) == AfterConnect(Tail(s))
    ensures !(s != [] && s[0]) ==>
      ConnectEvents(s, attempts, draws, uniform, maximum) == [ConnectCall(false)] &&
      Leading(s) == 0 && AfterConnect(s) == Tail(s)
  {
  }

  /** The connection state and backoff counter of `Base`. */
  class Base {
    const env: Env
    var attempts: nat
    /** `DEFAULT_MAXIMUM_BACKOFF`. */
    const maximumBackoff: real

    constructor(env: Env, maximumBackoff: real)
      ensures this.env == env && attempts == 0 && this.maximumBackoff == maximumBackoff
    {
      this.env := env;
      attempts := 0;
      this.maximumBackoff := maximumBackoff;
    }

    /** `_wait`: count the attempt, then log and sleep for the backoff delay. */
    method Wait()
      modifies this, env
      ensures attempts == old(attempts) + 1
      ensures var seconds := Backoff(attempts, env.uniform(old(env.draws)), maximumBackoff);
        env.trace == old(env.trace) + [Log(Debug, WaitingToReconnect(seconds)), Sleep(seconds)]
      ensures env.draws == old(env.draws) + 1
      ensures env.connected == old(env.connected) && env.connectScript == old(env.connectScript)
      ensures env.sendScript == old(env.sendScript) && env.cache == old(env.cache) && env.uuids == old(env.uuids)
    {
      attempts := attempts + 1;
      var jitter := env.Uniform();
      var seconds := Backoff(attempts, jitter, maximumBackoff);
      env.Emit(Log(Debug, WaitingToReconnect(seconds)));
      env.Emit(Sleep(seconds));
    }

    /** One pass of the `connect` loop: a refused call waits, an accepted one resets the counter. */
    method Attempt() returns (refused: bool)
      requires !env.connected
      modifies this, env
      ensures refused == (old(env.connectScript) != [] && old(env.connectScript)[0])
      ensures env.connected == !refused && env.connectScript == Tail(old(env.connectScript))
      ensures refused ==>
        attempts == old(attempts) + 1 && env.draws == old(env.draws) + 1 &&
        env.trace == old(env.trace) + RefusalEvents(Backoff(attempts, env.uniform(old(env.draws)), maximumBackoff))
      ensures !refused ==>
        attempts == 0 && env.draws == old(env.draws) && env.trace == old(env.trace) + [ConnectCall(false)]
      ensures env.sendScript == old(env.sendScript) && env.cache == old(env.cache) && env.uuids == old(env.uuids)
    {
      refused := env.Connect();
      if refused {
        Wait();
      } else {
        attempts := 0;
      }
    }

    /**
     * `connect`: while not connected, call `connect`; a refusal waits, an
     * accepted call resets the counter. Already connected, nothing happens.
     */
    method Connect()
      modifies this, env
      ensures env.connected
      ensures old(env.connected) ==>
        attempts == old(attempts) && env.trace == old(env.trace) &&
        env.connectScript == old(env.connectScript) && env.draws == old(env.draws)
      ensures !old(env.connected) ==>
        attempts == 0 &&
        env.trace == old(env.trace) + ConnectEvents(old(env.connectScript), old(attempts), old(env.draws), env.uniform, maximumBackoff) &&
        env.draws == old(env.draws) + Leading(old(env.connectScript)) &&
        env.connectScript == AfterConnect(old(env.connectScript))
      ensures env.sendScript == old(env.sendScript) && env.cache == old(env.cache) && env.uuids == old(env.uuids)
    {
      if env.connected {
        return;
      }
      ghost var script, start, d0 := env.connectScript, env.trace, env.draws;
      ghost var total := ConnectEvents(script, attempts, d0, env.uniform, maximumBackoff);
      while !env.connected
        invariant env.sendScript == old(env.sendScript) && env.cache == old(env.cache) && env.uuids == old(env.uuids)
        invariant Pending(script, start, total, d0) || Settled(script, start, total, d0)
        decreases |env.connectScript|, if env.connected then 0 else 1
      {
        Step(script, start, total, d0);
      }
    }

    /**
     * While disconnected, the events so far followed by those the rest of the
     * script will produce are the events of the whole `connect()`.
     */
    ghost predicate Pending(script: seq<bool>, start: seq<Event>, total: seq<Event>, d0: nat)
      reads this, env
    {
      !env.connected &&
      start + total == env.trace + ConnectEvents(env.connectScript, attempts, env.draws, env.uniform, maximumBackoff) &&
      d0 + Leading(script) == env.draws + Leading(env.connectScript) &&
      AfterConnect(script) == AfterConnect(env.connectScript)
    }

    /** Once connected, the whole `connect()` has happened. */
    ghost predicate Settled(script: seq<bool>, start: seq<Event>, total: seq<Event>, d0: nat)
      reads this, env
    {
      env.connected && attempts == 0 && env.trace == start + total && env.draws == d0 + Leading(script) &&
      env.connectScript == AfterConnect(script)
    }

    /** One pass of the `connect` loop, checked against the events of the whole call. */
    method Step(ghost script: seq<bool>, ghost start: seq<Event>, ghost total: seq<Event>, ghost d0: nat)
      requires Pending(script, start, total, d0)
      modifies this, env
      ensures Pending(script, start, total, d0) || Settled(script, start, total, d0)
      ensures env.connected || |env.connectScript| < |old(env.connectScript)|
      ensures |env.connectScript| <= |old(env.connectScript)|
      ensures env.sendScript == old(env.sendScript) && env.cache == old(env.cache) && env.uuids == old(env.uuids)
    {
      ghost var trace, rest := env.trace, env.connectScript;
      ConnectUnfold(rest, attempts, env.draws, env.uniform, maximumBackoff);
      var refused := Attempt();
      if refused {
        assert trace + RefusalEvents(Backoff(attempts, env.uniform(env.draws - 1), maximumBackoff)) +
               ConnectEvents(env.connectScript, attempts, env.draws, env.uniform, maximumBackoff) ==
               trace + ConnectEvents(rest, attempts - 1, env.draws - 1, env.uniform, maximumBackoff);
      }
    }

    /** `_disconnect`. */
    method Disconnect()
      modifies env
      ensures !env.connected && env.trace == old(env.trace) + [DisconnectCall]
      ensures env.connectScript == old(env.connectScript) && env.sendScript == old(env.sendScript)
      ensures env.cache == old(env.cache) && env.draws == old(env.draws) && env.uuids == old(env.uuids)
    {
      env.Disconnect();
    }
  }
}

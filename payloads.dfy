/**
 * django_outbox_pattern/payloads.py: the handle a consumer callback receives.
 * It acknowledges the broker frame by its `message-id` header, at most once,
 * and stores the inbox row it is bound to.
 */
module Payloads {
  import opened Wrappers
  import opened Values
  import opened Dicts
  import opened Headers
  import opened Models
  import opened Tables
  import opened Store
  import opened World

  /** `_message_id`: `headers.get("message-id")`. */
  function MessageId(h: Headers): Option<HVal> {
    Get(h, "message-id")
  }

  /** Calls a callback can make on its payload that reach the broker. */
  datatype Reply = AckReply | NackReply

  /** The broker calls a sequence of `ack`/`nack` calls makes, given the flags it starts from. */
  function BrokerCalls(calls: seq<Reply>, acked: bool, nacked: bool): seq<Reply> {
    if calls == [] then []
    else if acked || nacked then BrokerCalls(calls[1..], acked, nacked)
    else [calls[0]] + BrokerCalls(calls[1..], calls[0] == AckReply, calls[0] == NackReply)
  }

  /**
   * Whatever a callback does, the broker hears at most one answer, and it is
   * the first one the callback gave: a second `ack` or `nack`, or an `ack`
   * after a `nack` (or the reverse), makes no call.
   */
  lemma {:induction false} FirstReplyOnly(calls: seq<Reply>)
    ensures BrokerCalls(calls, false, false) == if calls == [] then [] else [calls[0]]
  {
    if calls != [] {
      SettledIsSilent(calls[1..], calls[0] == AckReply, calls[0] == NackReply);
    }
  }

  lemma {:induction false} SettledIsSilent(calls: seq<Reply>, acked: bool, nacked: bool)
    requires acked || nacked
    ensures BrokerCalls(calls, acked, nacked) == []
  {
    if calls != [] {
      SettledIsSilent(calls[1..], acked, nacked);
    }
  }

  class Payload {
    const env: Env
    const db: Database
    const body: Json
    const headers: Headers
    var message: Option<Received>
    var acked: bool
    var nacked: bool
    var saved: bool
    /** Where the trace stood when the payload was made. */
    ghost const mark: nat

    /** Since the payload was made, the broker heard one answer if it is settled and none otherwise. */
    ghost predicate Valid()
      reads this, env
    {
      mark <= |env.trace| &&
      Replies(env.trace[mark..]) == (if acked || nacked then 1 else 0) &&
      !(acked && nacked)
    }

    constructor(env: Env, db: Database, body: Json, headers: Headers, message: Option<Received>)
      ensures this.env == env && this.db == db && this.body == body && this.headers == headers
      ensures this.message == message && !acked && !nacked && !saved
      ensures mark == |env.trace| && Valid()
    {
      this.env := env;
      this.db := db;
      this.body := body;
      this.headers := headers;
      this.message := message;
      acked := false;
      nacked := false;
      saved := false;
      mark := |env.trace|;
      new;
      assert env.trace[mark..] == [];
    }

    /** `ack`: the first answer sends an ACK for the `message-id` header; later ones do nothing. */
    method Ack()
      requires Valid()
      modifies this, env
      ensures Valid()
      ensures !old(acked) && !old(nacked) ==> acked && env.Appended(AckCall(MessageId(headers)))
      ensures old(acked) || old(nacked) ==> acked == old(acked) && env.trace == old(env.trace)
      ensures nacked == old(nacked) && saved == old(saved) && message == old(message)
      ensures env.OnlyTrace()
    {
      if !acked && !nacked {
        ghost var t := env.trace;
        env.Emit(AckCall(MessageId(headers)));
        StrayEvent(t, mark, AckCall(MessageId(headers)));
        acked := true;
      }
    }

    /** `nack`: the first answer sends a NACK with `requeue=False`; later ones do nothing. */
    method Nack()
      requires Valid()
      modifies this, env
      ensures Valid()
      ensures !old(acked) && !old(nacked) ==> nacked && env.Appended(NackCall(MessageId(headers), false))
      ensures old(acked) || old(nacked) ==> nacked == old(nacked) && env.trace == old(env.trace)
      ensures acked == old(acked) && saved == old(saved) && message == old(message)
      ensures env.OnlyTrace()
    {
      if !acked && !nacked {
        ghost var t := env.trace;
        env.Emit(NackCall(MessageId(headers), false));
        StrayEvent(t, mark, NackCall(MessageId(headers), false));
        nacked := true;
      }
    }

    /** `save`: store the bound inbox row; a refused insert leaves `saved` as it was. */
    method Save() returns (ok: bool)
      requires db.Valid()
      modifies this, db
      ensures db.Valid()
      ensures ok <==> old(message).Some? && !MsgIdClash(old(db.received), old(message).value)
      ensures ok ==> saved && db.received == Upsert(old(db.received), ReceivedRow, old(message).value)
      ensures !ok ==> saved == old(saved) && db.received == old(db.received)
      ensures db.published == old(db.published) && db.up == old(db.up)
      ensures acked == old(acked) && nacked == old(nacked) && message == old(message)
    {
      if message.None? {
        return false;
      }
      ok := db.SaveReceived(message.value);
      if ok {
        saved := true;
      }
    }
  }

  /** An appended event changes the answer count by its own count. */
  lemma StrayEvent(t: seq<Event>, mark: nat, e: Event)
    requires mark <= |t|
    ensures Replies((t + [e])[mark..]) == Replies(t[mark..]) + (if e.AckCall? || e.NackCall? then 1 else 0)
  {
    assert (t + [e])[mark..] == t[mark..] + [e];
    CountsAppend(t[mark..], [e]);
    CountsOne(e);
  }

  /** Appending events that are not answers keeps every payload's count. */
  lemma QuietEvents(t: seq<Event>, mark: nat, es: seq<Event>)
    requires mark <= |t| && Replies(es) == 0
    ensures Replies((t + es)[mark..]) == Replies(t[mark..])
  {
    assert (t + es)[mark..] == t[mark..] + es;
    CountsAppend(t[mark..], es);
  }
}

/** The headers the library attaches to an outbox record (django_outbox_pattern/headers.py). */
module Headers {
  import opened Wrappers
  import opened Dicts
  import opened Values

  type Headers = Dict<HVal>

  /** `generate_headers(message)`: the message id, destination, type and the send time. */
  function GenerateHeaders(id: string, destination: string, typeName: string, now: int): (h: Headers)
    ensures Wf(h)
    ensures Get(h, "dop-msg-id") == Some(HStr(id))
    ensures Get(h, "dop-msg-destination") == Some(HStr(destination))
    ensures Get(h, "dop-msg-type") == Some(HStr(typeName))
    ensures Get(h, "dop-msg-sent-time") == Some(HTime(now))
  {
    GeneratedWf(id, destination, typeName, now);
    GeneratedGet(id, destination, typeName, now, "dop-msg-id");
    GeneratedGet(id, destination, typeName, now, "dop-msg-destination");
    GeneratedGet(id, destination, typeName, now, "dop-msg-type");
    GeneratedGet(id, destination, typeName, now, "dop-msg-sent-time");
    Generated(id, destination, typeName, now)
  }

  /** The dictionary literal of `generate_headers`, entered key by key. */
  function Generated(id: string, destination: string, typeName: string, now: int): Headers {
    var h0: Headers := [];
    var h1 := Put(h0, "dop-msg-id", HStr(id));
    var h2 := Put(h1, "dop-msg-destination", HStr(destination));
    var h3 := Put(h2, "dop-msg-type", HStr(typeName));
    Put(h3, "dop-msg-sent-time", HTime(now))
  }

  lemma GeneratedWf(id: string, destination: string, typeName: string, now: int)
    ensures Wf(Generated(id, destination, typeName, now))
  {
    var h0: Headers := [];
    var h1 := Put(h0, "dop-msg-id", HStr(id));
    var h2 := Put(h1, "dop-msg-destination", HStr(destination));
    var h3 := Put(h2, "dop-msg-type", HStr(typeName));
    PutWf(h0, "dop-msg-id", HStr(id));
    PutWf(h1, "dop-msg-destination", HStr(destination));
    PutWf(h2, "dop-msg-type", HStr(typeName));
    PutWf(h3, "dop-msg-sent-time", HTime(now));
  }

  lemma GeneratedGet(id: string, destination: string, typeName: string, now: int, k: string)
    ensures Get(Generated(id, destination, typeName, now), k) ==
      if k == "dop-msg-sent-time" then Some(HTime(now))
      else if k == "dop-msg-type" then Some(HStr(typeName))
      else if k == "dop-msg-destination" then Some(HStr(destination))
      else if k == "dop-msg-id" then Some(HStr(id))
      else None
  {
    var h0: Headers := [];
    var h1 := Put(h0, "dop-msg-id", HStr(id));
    var h2 := Put(h1, "dop-msg-destination", HStr(destination));
    var h3 := Put(h2, "dop-msg-type", HStr(typeName));
    GetPut(h0, "dop-msg-id", HStr(id), k);
    GetPut(h1, "dop-msg-destination", HStr(destination), k);
    GetPut(h2, "dop-msg-type", HStr(typeName), k);
    GetPut(h3, "dop-msg-sent-time", HTime(now), k);
  }

  /** `generate_headers` yields exactly these four keys: it merges no caller header in. */
  lemma GeneratedKeysExactly(id: string, destination: string, typeName: string, now: int, k: string)
    ensures HasKey(GenerateHeaders(id, destination, typeName, now), k) <==>
            k in {"dop-msg-id", "dop-msg-destination", "dop-msg-type", "dop-msg-sent-time"}
  {
    GeneratedGet(id, destination, typeName, now, k);
  }

  const CorrelationKey: string := "dop-correlation-id"

  /** What the library itself would attach: the generated headers plus the request's correlation id. */
  function LibraryHeaders(id: string, destination: string, typeName: string, now: int,
                          requestId: Option<string>): Headers
  {
    var g := GenerateHeaders(id, destination, typeName, now);
    if requestId.Some? then Put(g, CorrelationKey, HStr(requestId.value)) else g
  }

  /**
   * The header generator the record's `save` calls. django_outbox_pattern/headers.py
   * shown here defines only `generate_headers`; this generator keeps every header
   * the caller set and adds the library's headers that the caller did not set.
   */
  function MessageHeaders(caller: Headers, id: string, destination: string, typeName: string,
                          now: int, requestId: Option<string>): Headers
  {
    Update(LibraryHeaders(id, destination, typeName, now, requestId), caller)
  }

  /** A header the caller set survives with its value. */
  lemma CallerHeadersSurvive(caller: Headers, id: string, destination: string, typeName: string,
                             now: int, requestId: Option<string>, k: string)
    requires Wf(caller) && HasKey(caller, k)
    ensures Get(MessageHeaders(caller, id, destination, typeName, now, requestId), k) == Get(caller, k)
  {
    GetUpdate(LibraryHeaders(id, destination, typeName, now, requestId), caller, k);
  }

  /** The generated message id is present unless the caller chose one. */
  lemma MessageIdAttached(caller: Headers, id: string, destination: string, typeName: string,
                          now: int, requestId: Option<string>)
    requires Wf(caller) && !HasKey(caller, "dop-msg-id")
    ensures Get(MessageHeaders(caller, id, destination, typeName, now, requestId), "dop-msg-id") == Some(HStr(id))
  {
    var g := GenerateHeaders(id, destination, typeName, now);
    GetUpdate(LibraryHeaders(id, destination, typeName, now, requestId), caller, "dop-msg-id");
    if requestId.Some? {
      GetPut(g, CorrelationKey, HStr(requestId.value), "dop-msg-id");
    }
  }

  /** The request's correlation id is attached unless the caller set one. */
  lemma CorrelationIdAttached(caller: Headers, id: string, destination: string, typeName: string,
                              now: int, requestId: string)
    requires Wf(caller) && !HasKey(caller, CorrelationKey)
    ensures Get(MessageHeaders(caller, id, destination, typeName, now, Some(requestId)), CorrelationKey)
            == Some(HStr(requestId))
  {
    var g := GenerateHeaders(id, destination, typeName, now);
    GetUpdate(LibraryHeaders(id, destination, typeName, now, Some(requestId)), caller, CorrelationKey);
    GetPut(g, CorrelationKey, HStr(requestId), CorrelationKey);
  }

  lemma MessageHeadersWf(caller: Headers, id: string, destination: string, typeName: string,
                         now: int, requestId: Option<string>)
    ensures Wf(MessageHeaders(caller, id, destination, typeName, now, requestId))
  {
    var g := GenerateHeaders(id, destination, typeName, now);
    if requestId.Some? {
      PutWf(g, CorrelationKey, HStr(requestId.value));
    }
    UpdateWf(LibraryHeaders(id, destination, typeName, now, requestId), caller);
  }
}

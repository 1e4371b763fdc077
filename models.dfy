/**
 * The outbox record (`Published`) and the inbox record (`Received`) of
 * django_outbox_pattern/models.py, as values. Times are seconds.
 */
module Models {
  import opened Wrappers
  import opened Dicts
  import opened Values
  import opened Headers
  import opened Choices

  type Time = int

  const Day: int := 86400

  /** `_one_more_day()`: the default expiry, one day from now. */
  function OneMoreDay(now: Time): Time {
    now + Day
  }

  /** `timezone.now() - timedelta(days=days)`. */
  function DaysAgo(now: Time, days: int): Time {
    now - days * Day
  }

  /** Python truthiness of an optional text field. */
  predicate Truthy(v: Option<string>) {
    v.Some? && v.value != ""
  }

  /**
   * An outbox row, or an instance of one in memory; `adding` is Django's
   * `_state.adding`: the instance has not been saved yet.
   */
  datatype Published = Published(
    id: string,
    version: Option<string>,
    destination: string,
    body: Json,
    added: Time,
    expiresAt: Time,
    retry: nat,
    status: Status,
    headers: Headers,
    adding: bool)

  /** `Published(...)` built with the field defaults, not yet saved. */
  function NewPublished(id: string, destination: string, body: Json, version: Option<string>,
                        headers: Headers, now: Time): (p: Published)
    ensures p.status == Schedule && p.retry == 0 && p.expiresAt == OneMoreDay(now)
    ensures p.adding && p.id == id && p.destination == destination && p.body == body
  {
    Published(id, version, destination, body, now, OneMoreDay(now), 0, Schedule, headers, true)
  }

  /**
   * The instance after `Published.save`: on the first save a truthy version
   * suffixes the destination, every save regenerates the headers from the
   * (suffixed) destination, and Django stamps `added` on insertion.
   */
  function SavedForm(p: Published, now: Time, requestId: Option<string>): Published {
    var destination := if p.adding && Truthy(p.version) then p.destination + "." + p.version.value
                       else p.destination;
    p.(destination := destination,
       headers := MessageHeaders(p.headers, p.id, destination, "Published", now, requestId),
       added := if p.adding then now else p.added,
       adding := false)
  }

  /** The first save adds the version suffix; saving again does not add it twice. */
  lemma VersionSuffixOnce(p: Published, now: Time, later: Time, requestId: Option<string>, rid2: Option<string>)
    requires p.adding && Truthy(p.version)
    ensures SavedForm(p, now, requestId).destination == p.destination + "." + p.version.value
    ensures SavedForm(SavedForm(p, now, requestId), later, rid2).destination == p.destination + "." + p.version.value
  {
  }

  /** Saving keeps the record's identity, payload and delivery state. */
  lemma SaveKeepsDeliveryState(p: Published, now: Time, requestId: Option<string>)
    ensures var q := SavedForm(p, now, requestId);
      q.id == p.id && q.body == p.body && q.status == p.status && q.retry == p.retry &&
      q.expiresAt == p.expiresAt && !q.adding
  {
  }

  /** The headers a save stores keep the caller's entries and carry the record's id. */
  lemma SavedHeaders(p: Published, now: Time, requestId: Option<string>, k: string)
    requires Wf(p.headers)
    ensures var q := SavedForm(p, now, requestId);
      Wf(q.headers) &&
      (HasKey(p.headers, k) ==> Get(q.headers, k) == Get(p.headers, k)) &&
      (!HasKey(p.headers, "dop-msg-id") ==> Get(q.headers, "dop-msg-id") == Some(HStr(p.id)))
  {
    var q := SavedForm(p, now, requestId);
    MessageHeadersWf(p.headers, p.id, q.destination, "Published", now, requestId);
    if HasKey(p.headers, k) {
      CallerHeadersSurvive(p.headers, p.id, q.destination, "Published", now, requestId, k);
    }
    if !HasKey(p.headers, "dop-msg-id") {
      MessageIdAttached(p.headers, p.id, q.destination, "Published", now, requestId);
    }
  }

  /** An inbox row; `msg_id`, `headers` and `body` may be NULL. */
  datatype Received = Received(
    id: string,
    msgId: Option<HVal>,
    headers: Option<Headers>,
    body: Option<Json>,
    added: Time,
    expiresAt: Time,
    retry: nat,
    status: Status)

  /** `Received(body=..., headers=..., msg_id=...)` with the field defaults. */
  function NewReceived(id: string, body: Json, headers: Headers, msgId: Option<HVal>, now: Time): (r: Received)
    ensures r.status == Succeeded && r.retry == 0 && r.expiresAt == OneMoreDay(now)
    ensures r.id == id && r.msgId == msgId && r.headers == Some(headers) && r.body == Some(body)
  {
    Received(id, msgId, Some(headers), Some(body), now, OneMoreDay(now), 0, Succeeded)
  }

  /** The `Received.destination` property. */
  function ReceivedDestination(r: Received): HVal {
    match r.headers
    case None => HStr("")
    case Some(h) => if h == [] then HStr("") else Get(h, "destination").GetOr(HStr(""))
  }

  /** The destination is the `destination` header when there is one, and empty text otherwise. */
  lemma ReceivedDestinationCases(r: Received)
    ensures r.headers.Some? && HasKey(r.headers.value, "destination") ==>
              ReceivedDestination(r) == Get(r.headers.value, "destination").value
    ensures (r.headers.None? || !HasKey(r.headers.value, "destination")) ==>
              ReceivedDestination(r) == HStr("")
  {
  }

  /** What the retention sweeps and the purge command look at in a row of either table. */
  datatype Row = Row(id: string, added: Time, status: Status)

  function PublishedRow(p: Published): Row {
    Row(p.id, p.added, p.status)
  }

  function ReceivedRow(r: Received): Row {
    Row(r.id, r.added, r.status)
  }
}

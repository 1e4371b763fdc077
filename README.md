# django-outbox-pattern, modelled in Dafny

This project models the broker-independent core of `django-outbox-pattern`. The library
gives Django applications a transactional outbox and an idempotent inbox on top of a
STOMP broker. The model covers:

- **The outbox write path.** The `@publish` class decorator writes one `Published` row
  per configured destination in the same transaction as the model's own save. A
  `Published.save` suffixes the destination with the version and regenerates the headers.
- **The relay.** `Producer.publish_message_from_database` sends every due row through a
  bounded retry loop. It marks each row SUCCEEDED or FAILED and sweeps old rows behind
  a cache flag.
- **The inbox.** `Consumer.message_handler` derives a deduplication key from the headers.
  It acknowledges duplicates without running the callback. Otherwise it runs the
  callback on a `Payload` that lets at most one `ack`/`nack` reach the broker, and
  settles the message from the callback's calls.
- **Subscription lifecycle.** `start` declares the dead-letter queue, then subscribes;
  `stop` and the listeners' reconnect-on-disconnect complete it.
- **Reconnects.** The shared `connect` loop retries with exponential backoff.
- **The `purge` management command.** It deletes settled rows older than a cutoff
  in batches, with a dry run and per-table flags.
- **The settings object.** Names are looked up in the project's `DJANGO_OUTBOX_PATTERN`
  dictionary, then in `DEFAULTS`. Import strings are coerced to the objects they name,
  values are cached until `reload`, and the cache is cleared when the project setting
  changes.

Every outside effect goes into one ordered trace, `World.Env.trace`: STOMP calls, sleeps,
log records and the closing of database connections. Properties such as "answered at most
once" and "sends nothing" are stated over that trace. The broker's answers are finite
scripts kept on the same object. So are the cache flags, `random.uniform(0, 1)` and
`stomp.utils.get_uuid()`. Clocks and uuid generators are parameters. The database is one
object, `Store.Database`, holding the `published` and `received` tables as sequences of
rows. A flag on it says whether queries succeed.

Modules follow the package: `Settings`, `Bases`, `Producers`, `Consumers`, `Payloads`,
`Listeners`, `Models`, `Headers`, `Choices`, `Decorators` and `Purge`. They sit on shared
modules: `Wrappers` (Option/Result), `Dicts` (Python dictionaries as ordered association
lists), `Values` (JSON documents and their wire form), `Tables` (Django `filter().delete()`,
`count()` and `save()` on a sequence of rows), `Store` and `World`.

Where the code and its own stated intent differ, the model follows the code:

- **The callback-outcome branch.** `message_handler` warns whenever the callback did not
  save, including when the callback called `ack` or `nack` itself. The warning's own text,
  "The save or nack command was not executed" (django_outbox_pattern/consumers.py:64-66),
  says it is meant for a callback that neither saved nor nacked. The guard
  `elif not payload.saved or not payload.nacked` (django_outbox_pattern/consumers.py:63)
  is reached only when `saved` is false, so it is always true.
  `Consumers.WarnsDespiteAnswer` states this.
- **Revision gaps.** Some names the code calls are not in the files modelled here, so the
  model rebuilds them as follows:
  - `get_message_headers` is imported by django_outbox_pattern/models.py:9, but
    django_outbox_pattern/headers.py defines only `generate_headers`. It is modelled as the
    generated headers plus the request's correlation id, with the caller's own headers
    winning.
  - The `Payload` flags `saved`/`acked`/`nacked`, `save()` and the at-most-once answer
    follow tests/unit/test_payload.py. django_outbox_pattern/payloads.py defines only `ack`, `nack` and
    `_message_id`.
  - The consumer listener's `on_message` calls `handle_incoming_message`; the consumer
    defines `message_handler`. The model dispatches to `message_handler`.
  - The settings that producers and consumers read without a `DEFAULTS` entry
    (`DAYS_TO_KEEP_DATA`, `DEFAULT_PRODUCER_WAITING_TIME`, `DAFAULT_EXCLUSIVE_QUEUE`,
    the cache keys) come from the project. They are gathered in `Bases.Tuning`.

## Model

| member | source | states |
|---|---|---|
| Settings.ImportFromString | django_outbox_pattern/settings.py:67-75 | an import succeeds exactly on an importable path and yields the object it names; otherwise it fails with an error naming the path and the setting |
| Settings.ImportAllMeaning | django_outbox_pattern/settings.py:62-63 | importing a list succeeds exactly when every item is an importable string, then yields the imported objects in order; otherwise the error belongs to the first item that is not |
| Settings.PerformImport | django_outbox_pattern/settings.py:54-64 | a string is imported; a value that is neither a string nor a list or tuple comes back unchanged |
| Settings.PerformImportSequence | django_outbox_pattern/settings.py:54-64 | a list or a tuple becomes a list with each item imported, and fails exactly when some item is not an importable string |
| Settings.Lookup | django_outbox_pattern/settings.py:96-109 | `__getattr__` without the cache: an unknown name fails, the project value is taken before the default, import strings are imported; `LookupMeaning` states it |
| Settings.LookupMeaning | django_outbox_pattern/settings.py:96-109 | an unknown name is `Invalid setting`; a project value wins over the default; only names in the import strings are coerced |
| Settings.LookupNoImport | django_outbox_pattern/settings.py:106-107 | a project value for a name outside the import strings is returned as it is |
| Settings.ImportFailureNeedsImportString | django_outbox_pattern/settings.py:96-109 | a lookup fails with `Invalid setting` exactly for an unknown name, and any other failure comes from an import-string setting |
| Settings.GenerateHeadersSetting | tests/unit/test_settings.py:10-19 | the default header generator is imported from its dotted path; a project override of `None` reads back `None` |
| Settings.DjangoSettings.constructor | django_outbox_pattern/settings.py:93 | the project's settings hold its `DJANGO_OUTBOX_PATTERN` dictionary, if any |
| Settings.Setting.constructor | django_outbox_pattern/settings.py:83-88 | empty defaults or import strings fall back to the library's own; only non-empty user settings are kept; nothing is cached |
| Settings.Setting.UserSettings | django_outbox_pattern/settings.py:90-94 | the first read takes the project's dictionary (empty when absent) and keeps it; later reads return the kept one |
| Settings.Setting.Attr | django_outbox_pattern/settings.py:96-114 | a cached attribute is returned unchanged; an unknown name fails without reading the project settings; otherwise the result is `Lookup` over the user settings, and a successful value is cached under its name |
| Settings.Setting.Reload | django_outbox_pattern/settings.py:116-121 | every cached attribute is deleted, the cache is emptied and the user settings are forgotten |
| Settings.ReloadSettings | django_outbox_pattern/settings.py:127-130 | a change of `DJANGO_OUTBOX_PATTERN` reloads; a change of any other setting leaves the cache and the user settings alone |
| Bases.Backoff | django_outbox_pattern/bases.py:42-43 | the delay is capped by the maximum, and it is the cap or `2^attempts + jitter` |
| Bases.BackoffWithin | django_outbox_pattern/bases.py:42-43 | with a jitter in [0, 1] the delay lies between `min(2^a, max)` and `min(2^a + 1, max)` |
| Bases.BackoffMonotone | django_outbox_pattern/bases.py:42-43 | more attempts never give a shorter delay, whatever the two jitters |
| Bases.RefusalCounts | django_outbox_pattern/bases.py:22-23 | a refused connect sleeps once for its delay and sends or answers nothing |
| Bases.ConnectEvents | django_outbox_pattern/bases.py:18-25 | the events of `connect()` against a scripted broker: for each leading refusal a call, a debug record and a backoff sleep, then the accepted call; `ConnectEventsLength` and `ConnectSleeps` state its shape |
| Bases.ConnectEventsLength | django_outbox_pattern/bases.py:18-25 | `connect()` makes one call per refusal plus the accepted call, which comes last |
| Bases.ConnectSleeps | django_outbox_pattern/bases.py:18-25 | `connect()` sleeps once per refusal; the i-th sleep uses exponent `attempts + 1 + i`, so the counter is raised before the delay is computed |
| Bases.ConnectQuiet | django_outbox_pattern/bases.py:18-25 | connecting sends no frame and answers no message |
| Bases.ConnectUnfold | django_outbox_pattern/bases.py:19-25 | one pass of the loop: a refusal adds its events and leaves the rest to the remaining script; an accepted call ends the events |
| Bases.Base.constructor | django_outbox_pattern/bases.py:13-16 | the attempt counter starts at zero |
| Bases.Base.Wait | django_outbox_pattern/bases.py:45-49 | the counter goes up by one, then the delay for the new count is logged and slept, with one jitter drawn |
| Bases.Base.Attempt | django_outbox_pattern/bases.py:20-25 | a refused call waits with the raised counter; an accepted one connects and resets the counter to zero |
| Bases.Base.Connect | django_outbox_pattern/bases.py:18-25 | afterwards the connection is up; from a closed connection the trace grows by exactly the events of the script's refusals and the accepted call, the counter is zero and one jitter was drawn per refusal; an open connection is left alone |
| Bases.Base.Step | django_outbox_pattern/bases.py:19-25 | one loop pass keeps "what happened plus what the rest of the script will do is the whole call" |
| Bases.Base.Disconnect | django_outbox_pattern/bases.py:39-40 | the connection is closed and the disconnect call recorded |
| Choices.FromCode | django_outbox_pattern/choices.py:4-7 | exactly the codes -1, 1 and 2 read back as FAILED, SCHEDULE and SUCCEEDED |
| Choices.CodeRoundTrip | django_outbox_pattern/choices.py:4-7 | every status reads back from its own code |
| Headers.GenerateHeaders | django_outbox_pattern/headers.py:4-10 | the headers are a dictionary with the id as text, the destination, the class name and the send time |
| Headers.GeneratedKeysExactly | django_outbox_pattern/headers.py:4-10 | the generated headers have exactly the four `dop-msg-*` keys |
| Headers.CallerHeadersSurvive | django_outbox_pattern/models.py:57 | a header the caller set survives the save with its value |
| Headers.MessageIdAttached | django_outbox_pattern/models.py:57 | the record's id is attached as `dop-msg-id` unless the caller set that header |
| Headers.CorrelationIdAttached | django_outbox_pattern/models.py:57 | the request's correlation id is attached unless the caller set one |
| Headers.MessageHeadersWf | django_outbox_pattern/models.py:57 | the stored headers form a dictionary, each key once |
| Values.DumpsLoads | django_outbox_pattern/producers.py:48 | a body the producer encodes decodes back to the same document; since `Dumps` is the abstract encoding itself, this round trip is the abstraction's own law, not a fact proved about `json.dumps` and `json.loads` |
| Models.NewPublished | django_outbox_pattern/models.py:16-31 | a new outbox row is SCHEDULE with zero retries, is still to be inserted, and expires one day after it was made; it holds the id, destination and body given |
| Models.VersionSuffixOnce | django_outbox_pattern/models.py:54-56 | the first save adds `.version` to the destination; a second save does not add it again |
| Models.SavedForm | django_outbox_pattern/models.py:54-59 | the row `Published.save` writes: a new versioned row gets the version suffix, every save regenerates the headers; `SaveKeepsDeliveryState`, `VersionSuffixOnce` and `SavedHeaders` state it |
| Models.SaveKeepsDeliveryState | django_outbox_pattern/models.py:54-59 | saving keeps the id, body, status, retries and expiry, and the row is no longer being added |
| Models.SavedHeaders | django_outbox_pattern/models.py:57 | the saved headers keep the caller's entries and carry the record's id |
| Models.NewReceived | django_outbox_pattern/models.py:62-76 | a new inbox row holds the id, body, headers and key given, is SUCCEEDED with zero retries and expires one day later |
| Models.ReceivedDestination | django_outbox_pattern/models.py:78-80 | the `destination` property of a received row; `ReceivedDestinationCases` states its cases |
| Models.ReceivedDestinationCases | django_outbox_pattern/models.py:78-80 | the destination is the `destination` header when there is one, and empty text otherwise |
| Store.Database.constructor | django_outbox_pattern/models.py:16-80 | both tables start empty |
| Store.Database.SavePublished | django_outbox_pattern/models.py:54-59 | the stored row is the record as its `save` override prepares it (`Stored`): an UPDATE replaces the row with its key; when no row holds the key the save falls back to an INSERT, which appends it and stamps `added` with the current time |
| Store.StoredAdded | django_outbox_pattern/models.py:27 | the save writes the prepared record, with `added` set to now for a record being added or one whose row is gone (`auto_now_add` on insert), and `added` kept for an update of an existing row |
| Store.Database.SaveReceived | django_outbox_pattern/models.py:70 | the insert is refused exactly when another row holds the same `msg_id` (NULL ids never clash); a refusal leaves the table unchanged |
| Store.Database.DeletePublished | django_outbox_pattern/producers.py:94 | the outbox loses exactly its matching rows, the others keep their order |
| Store.Database.DeleteReceived | django_outbox_pattern/consumers.py:138 | the inbox loses exactly its matching rows, the others keep their order |
| Store.Database.DropMatching | django_outbox_pattern/management/commands/purge.py:47-51 | the first `n` matching rows of the chosen table are deleted and nothing else |
| Store.Database.RollbackReceived | django_outbox_pattern/consumers.py:60 | a rolled-back atomic block leaves the inbox as it was when the block began |
| Store.SavedRowBlocksItsMsgId | django_outbox_pattern/models.py:70 | once a row is stored, another row with the same key is refused |
| Store.NullMsgIdTaken | django_outbox_pattern/consumers.py:49 | once a row with a NULL `msg_id` exists, every later lookup of a NULL key finds it |
| Store.NoClashAfterOwnSave | django_outbox_pattern/consumers.py:57-62 | a stored row can be saved again without clashing with its own copy |
| Tables.KeptMembers | django_outbox_pattern/producers.py:94 | a row survives `filter(c).delete()` exactly when it does not match |
| Tables.DropHitsCount | django_outbox_pattern/management/commands/purge.py:47-52 | deleting the first `n` matching rows removes `min(n, matching)` of them |
| Tables.DropHitsKept | django_outbox_pattern/management/commands/purge.py:51 | deleting matching rows never touches the rows that do not match |
| Tables.UpsertMembers | django_outbox_pattern/models.py:59 | after `save()` the instance is in the table and every other row was there before |
| Tables.UpsertTwice | django_outbox_pattern/models.py:59 | saving the same instance twice is saving it once |
| Tables.UpsertFresh | django_outbox_pattern/models.py:59 | saving an instance with a new key appends it |
| Dicts.GetPut | django_outbox_pattern/consumers.py:115-122 | after `d[k] = v`, `k` reads `v` and every other key reads as before |
| Dicts.GetUpdate | django_outbox_pattern/consumers.py:115-122 | after `d.update(e)` a key reads from `e` when `e` has it, and from `d` otherwise |
| Dicts.UpdateWf | django_outbox_pattern/consumers.py:115-122 | updating a dictionary keeps every key unique |
| World.Env.Connect | django_outbox_pattern/bases.py:21 | the broker answers a connect as its script says, and an accepted call connects |
| World.Env.Send | django_outbox_pattern/producers.py:74 | a send is recorded with its frame and refused when the script says so |
| World.Env.Uniform | django_outbox_pattern/bases.py:43 | the jitter is `uniform(draws)` and the draw counter advances |
| World.Env.NewUuid | django_outbox_pattern/consumers.py:100 | `get_uuid()` hands out `uuid(uuids)` and advances the counter |
| World.Env.CacheSet | django_outbox_pattern/producers.py:96 | the key is added to the set cache keys and nothing else changes |
| Payloads.FirstReplyOnly | tests/unit/test_payload.py:31-67 | whatever a callback calls, the broker hears at most one answer, and it is the first one the callback gave |
| Payloads.SettledIsSilent | tests/unit/test_payload.py:31-67 | once a payload is acked or nacked, later calls reach the broker no more |
| Payloads.Payload.constructor | django_outbox_pattern/payloads.py:2-5 | a payload starts unsaved and unanswered, with the body, headers and bound row given |
| Payloads.Payload.Ack | django_outbox_pattern/payloads.py:7-8 | the first answer sends an ACK for the `message-id` header and sets `acked`; after any answer nothing happens |
| Payloads.Payload.Nack | django_outbox_pattern/payloads.py:10-11 | the first answer sends a NACK with `requeue=False` and sets `nacked`; after any answer nothing happens |
| Payloads.Payload.Save | tests/unit/test_payload.py:10-13 | the bound inbox row is stored and `saved` set, unless there is no bound row or its key clashes, which leaves both alone |
| Payloads.StrayEvent | tests/unit/test_payload.py:31-67 | an event appended behind a payload's back changes the answer count by its own count |
| Payloads.QuietEvents | tests/unit/test_payload.py:31-67 | events that are not answers keep every payload's answer count |
| Producers.RetryOutcome | django_outbox_pattern/producers.py:70-84 | the outcome of `_send_with_retry` against a scripted broker: sent after the leading refusals when fewer than the limit, otherwise given up; its meaning is `RetryOutcomeMeaning` |
| Producers.RetryOutcomeMeaning | django_outbox_pattern/producers.py:70-84 | a send succeeds exactly when fewer than the limit of calls are refused first, after that many refusals; otherwise it gives up after the limit |
| Producers.FailureEventsCounts | django_outbox_pattern/producers.py:75-80 | `n` refusals make `n` send calls and answer nothing; they sleep once for the pause after the third and once for the wait after each later one |
| Producers.RetrySendCount | django_outbox_pattern/producers.py:70-84 | a send that goes through after `k` refusals made `k + 1` calls; one that gives up made as many calls as attempts |
| Producers.SentAfter | django_outbox_pattern/producers.py:72-82 | the loop stops at the first accepted call after `k` refusals, with those events |
| Producers.ExceededAfter | django_outbox_pattern/producers.py:72-84 | the loop gives up after `a` refusals when `a` is the limit |
| Producers.RecordFrameFields | django_outbox_pattern/producers.py:46-53 | caller arguments win; otherwise the frame carries the record's destination and headers, and its body decodes back to the record's body |
| Producers.EventFrameFields | django_outbox_pattern/producers.py:55-61 | an event frame carries the given destination and the encoded body, and headers only when the caller passes some |
| Producers.DueRowsMembers | django_outbox_pattern/producers.py:103-105 | a row is due exactly when it is SCHEDULE and not expired |
| Producers.DueRowsUnique | django_outbox_pattern/producers.py:103-105 | the due rows keep the keys unique |
| Producers.Transition | django_outbox_pattern/producers.py:118-127 | the fields set on a row after its send: retry and SUCCEEDED, or retry, FAILED and a new expiry; `TransitionSettles` states what that makes of the row |
| Producers.TransitionSettles | django_outbox_pattern/producers.py:117-127 | a processed row ends SUCCEEDED with the refusal count, or FAILED with the attempts and 15 more days; either way it is no longer due |
| Producers.Producer.constructor | django_outbox_pattern/producers.py:24-28 | the listener name is `producer-listener-` followed by a fresh uuid |
| Producers.Producer.Start | django_outbox_pattern/producers.py:37-38 | afterwards the connection is up, by way of the connect loop's events |
| Producers.Producer.Stop | django_outbox_pattern/producers.py:40-44 | the connection is closed |
| Producers.Producer.RemoveOldMessages | django_outbox_pattern/producers.py:89-96 | with the cache flag set nothing is deleted; otherwise exactly the rows added before the cutoff are deleted; the flag is set afterwards |
| Producers.Producer.RetryLoop | django_outbox_pattern/producers.py:70-84 | the outcome, trace and remaining script are those of `RetryOutcome` and `RetryEvents` on the broker's script |
| Producers.Producer.SendWithRetry | django_outbox_pattern/producers.py:63-87 | as the retry loop; the sweep of old rows runs only after an accepted send |
| Producers.Producer.Send | django_outbox_pattern/producers.py:46-53 | the record's frame goes through the retry loop with its sweep |
| Producers.Producer.SendEvent | django_outbox_pattern/producers.py:55-61 | the event's frame goes through the retry loop; an accepted send runs the sweep behind the cache flag, a send that gives up leaves the outbox and the cache alone |
| Producers.Producer.Waiting | django_outbox_pattern/producers.py:98-99 | one sleep for the producer's waiting time and nothing else |
| Producers.Producer.PublishOne | django_outbox_pattern/producers.py:113-129 | the outcome is the retry loop's against the broker's script, the script loses exactly the calls made, the trace gains the debug record, that send's events and the outcome's records, and the sweep runs exactly when the send went through and the cache flag was clear, deleting exactly the rows added before the cutoff; the row is then saved with its outcome on the outbox the sweep left, re-inserted with a fresh `added` if the sweep took it; the cache flag is set exactly after an accepted send |
| Producers.Producer.PublishMessageFromDatabase | django_outbox_pattern/producers.py:101-135 | an unreachable database or no due rows logs and waits; otherwise the i-th due row's outcome is the retry loop's against the script the rows before it left, the outbox is `Relayed`: each due row ends saved SUCCEEDED or FAILED with its outcome, re-inserted with a fresh `added` when a sweep took it after an earlier accepted send, or gone when the one sweep took it after its own save; every other row stays unless the sweep took it; no other row appears; the cache flag is set exactly when some send was accepted; the trace is `start()`'s events, each row's events in order, the disconnect and the wait |
| Producers.Producer.RelayStep | django_outbox_pattern/producers.py:113-129 | one pass of the loop keeps `Relayed` (the fate of every row relayed so far, of every row not yet reached, and no other rows) and the cache flag, and `Relaying` (the outcomes, the script left and the trace are the fold over the rows so far) |
| Producers.Producer.RelayAll | django_outbox_pattern/producers.py:111-130 | `start()`, one pass per due row in order, then `stop()`: the outcomes, the script left and the trace are `RelayOutcomes`, `RelayScript` and `RelayEvents` over all due rows, and the connection ends closed |
| Producers.Producer.LogOutcome | django_outbox_pattern/producers.py:119-127 | a row whose send gave up logs the error and "not published", a sent row logs "published", and nothing else changes |
| Producers.Producer.Idle | django_outbox_pattern/producers.py:106-109 | a pass that publishes nothing logs one record and waits, and nothing else changes |
| Producers.RowEventsCounts | django_outbox_pattern/producers.py:113-129 | relaying a row answers no message and calls `send` once per attempt, plus once more when the broker accepted |
| Producers.RowEventsFrames | django_outbox_pattern/producers.py:113-117 | every send made for a row carries that row's body, destination and headers |
| Producers.RelayOutcomesMeaning | django_outbox_pattern/producers.py:113-129 | there is one outcome per due row, and the i-th is the retry loop's against the script left by the rows before it |
| Producers.RelayEventsQuiet | django_outbox_pattern/producers.py:111-130 | relaying the due rows answers no message |
| Producers.RelayEventsFrames | django_outbox_pattern/producers.py:111-130 | every send of the relay carries the frame of one of the due rows |
| Producers.RelayedStep | django_outbox_pattern/producers.py:113-129 | saving one more row with its outcome, after the sweep that send triggers, carries `Relayed` from `n` rows to `n + 1` |
| Producers.RowRelayedStep | django_outbox_pattern/producers.py:113-129 | a row relayed earlier keeps its fate when a later row is saved: the first sweep may take it, and later saves leave it alone |
| Producers.RowRelayedNew | django_outbox_pattern/producers.py:113-129 | the row just saved is in the outbox with its outcome, with a fresh `added` when the sweep had taken its old row |
| Producers.RowPendingStep | django_outbox_pattern/producers.py:89-96 | a row not yet reached stays in the outbox unless the first sweep takes it as older than the cutoff |
| Producers.StepKeeps | django_outbox_pattern/producers.py:93-94 | a save of another key keeps a row unless the sweep before it took the row for being older than the cutoff |
| Producers.StepKeyOut | django_outbox_pattern/producers.py:93-94 | a key the sweep removed stays absent when another key is saved |
| Producers.OnlyRelayedStep | django_outbox_pattern/producers.py:113-129 | after one more save the outbox still holds only rows from before the pass and rows the pass saved |
| Producers.RelayedKeepsUntouched | django_outbox_pattern/producers.py:93-94 | a row that was not due and was added at or after the cutoff is still in the outbox after the pass |
| Producers.AnySentSnoc | django_outbox_pattern/producers.py:86 | some send of the pass was accepted exactly when one before the last was, or the last was |
| Tables.KeptDropsKey | django_outbox_pattern/producers.py:94 | a filtered delete removes the key of every row it matches |
| Listeners.OccursMeaning | django_outbox_pattern/listeners.py:28 | Python's `a in b` on strings holds exactly when `a` sits in `b` at some position |
| Listeners.Guard | django_outbox_pattern/listeners.py:28 | the test `subscribe_id in frame.headers["subscription"]`, with its `KeyError` and `TypeError`; `GuardMeaning` states it |
| Listeners.GuardMeaning | django_outbox_pattern/listeners.py:28 | a frame passes exactly when its subscription header is text containing the current id; a missing header is `KeyError` and a `None` id or non-text header is `TypeError` |
| Listeners.OwnSubscriptionPasses | django_outbox_pattern/listeners.py:28 | a frame carrying the current id as its subscription header always passes |
| Listeners.BaseListener.constructor | django_outbox_pattern/listeners.py:9-10 | the listener keeps the instance it serves |
| Listeners.BaseListener.OnConnecting | django_outbox_pattern/listeners.py:12-13 | one debug record and nothing else |
| Listeners.BaseListener.OnConnected | django_outbox_pattern/listeners.py:15-16 | one debug record and nothing else |
| Listeners.BaseListener.OnError | django_outbox_pattern/listeners.py:18-19 | one debug record and nothing else |
| Listeners.ConsumerListener.constructor | django_outbox_pattern/listeners.py:9-10 | the listener keeps the consumer it serves |
| Listeners.ConsumerListener.OnDisconnected | django_outbox_pattern/listeners.py:23-25 | after the log record, the consumer is started again with its stored callback, destination and queue name |
| Listeners.ConsumerListener.LogDelivery | django_outbox_pattern/listeners.py:29-31 | the three delivery records, nothing else |
| Listeners.ConsumerListener.OnMessage | django_outbox_pattern/listeners.py:27-32 | a frame for the current subscription is logged and handled by the message handler; any other frame changes nothing; a guard error changes nothing |
| Listeners.ProducerListener.constructor | django_outbox_pattern/listeners.py:9-10 | the listener keeps the producer it serves |
| Listeners.ProducerListener.OnDisconnected | django_outbox_pattern/listeners.py:36-38 | after the log record, the producer connects again |
| Listeners.ProducerListener.OnSend | django_outbox_pattern/listeners.py:40-43 | a SEND frame is logged twice, any other command not at all, and nothing else changes |
| Consumers.LastId | django_outbox_pattern/consumers.py:19-24 | the value of the last header whose name ends in `-id`; `LastIdMeaning` states it and `GetMsgId` computes it |
| Consumers.LastIdMeaning | django_outbox_pattern/consumers.py:19-24 | the key is absent exactly when no header name ends in `-id`; otherwise it is the value of the last such header |
| Consumers.GetMsgId | django_outbox_pattern/consumers.py:19-24 | the loop's result is `LastId` of the headers |
| Consumers.AckIdIsNotDedupKey | django_outbox_pattern/consumers.py:19-24 | the broker's `message-id` and the deduplication key are different headers and can differ |
| Consumers.FirstAnswerMeaning | django_outbox_pattern/consumers.py:60 | the first answer is the callback's first `ack` or `nack`, preceded only by saves |
| Consumers.FirstAnswerSnoc | django_outbox_pattern/consumers.py:60 | one more call changes the first answer only while there is none, and only to an answer |
| Consumers.FirstAnswerNotSave | django_outbox_pattern/consumers.py:60 | the first answer is never a save |
| Consumers.FirstAnswerCases | django_outbox_pattern/consumers.py:60 | the first answer is an ack, a nack or none |
| Consumers.AnswerCounts | django_outbox_pattern/payloads.py:7-11 | an answer is one broker acknowledgement and no send |
| Consumers.AfterCallbackCounts | django_outbox_pattern/consumers.py:61-73 | after the callback the handler answers once exactly when the callback raised or saved without answering itself, and sends nothing |
| Consumers.HandledAnswersOnce | django_outbox_pattern/consumers.py:59-79 | a handled message is answered exactly once when the callback answered, saved or raised, and not at all otherwise, in which case it is warned about |
| Consumers.WarnsDespiteAnswer | django_outbox_pattern/consumers.py:61-69 | a callback that only acks is settled by its ack and still warned about |
| Consumers.HandlerSpec | django_outbox_pattern/consumers.py:40-79 | the outcome, inbox, cache and trace `message_handler` leaves for an unreachable inbox, a duplicate, and a processed delivery; `HandlerAnswersAtMostOnce` and `RedeliveryIsDuplicate` state what follows from it |
| Consumers.HandlerAnswersAtMostOnce | django_outbox_pattern/consumers.py:40-79 | every delivery is answered at most once and sends nothing; a raise or save is always answered; never both ack and nack; an unanswered message is warned about |
| Consumers.DecodeQuiet | django_outbox_pattern/consumers.py:41-44 | decoding a body sends and answers nothing |
| Consumers.DuplicateEventsCounts | django_outbox_pattern/consumers.py:49-53 | a discarded duplicate is answered once and sends nothing |
| Consumers.InboxAfterCallbackMembers | django_outbox_pattern/consumers.py:55-60 | the message's row is in the inbox after the callback exactly when it was saved and not rolled back, or was there already |
| Consumers.RedeliveryIsDuplicate | django_outbox_pattern/consumers.py:49-53 | after a handled message whose save was kept, a redelivery with the same key is discarded as a duplicate |
| Consumers.LastSegmentMeaning | django_outbox_pattern/consumers.py:111 | the routing key is a suffix of the destination without `/`, preceded by `/` unless it is the whole destination |
| Consumers.QueueFor | django_outbox_pattern/consumers.py:111-114 | the queue `_subscribe` declares: the queue name when truthy, else the routing key, with `DLQ.` in front for the dead-letter queue; `QueueNamedAfterDestination` states it |
| Consumers.DeadLetterKey | django_outbox_pattern/consumers.py:119 | the `x-dead-letter-routing-key` for a queue: `DLQ.DLQ.` in front for the dead-letter queue, `DLQ.` otherwise; `DeadLetterRouting` states the resulting names |
| Consumers.DeadLetterRouting | django_outbox_pattern/consumers.py:112-121 | the main queue dead-letters to `DLQ.<queue>` through the default exchange; the dead-letter queue is `DLQ.<queue>` and dead-letters to `DLQ.DLQ.DLQ.<queue>` |
| Consumers.QueueNamedAfterDestination | django_outbox_pattern/consumers.py:111-112 | without a queue name the queue is named after the destination's last segment |
| Consumers.StartCounts | django_outbox_pattern/consumers.py:81-88 | a first `start` subscribes twice and cancels the first; a later one reuses the id and subscribes once; neither answers nor sends |
| Consumers.NoRepliesNoSends | django_outbox_pattern/consumers.py:81-88 | a trace without ack, nack or send events counts none |
| Consumers.Consumer.constructor | django_outbox_pattern/consumers.py:28-38 | the identity callback, no destination, queue or subscription, the shipped queue headers, a `consumer-listener-` name from a fresh uuid, and the listener set |
| Consumers.Consumer.Subscribe | django_outbox_pattern/consumers.py:109-127 | the shared headers are updated with the queue arguments; the dead-letter queue subscribes by queue name and the main one by destination, in client-ack mode; a missing destination raises |
| Consumers.Consumer.CreateDlqQueue | django_outbox_pattern/consumers.py:98-102 | exactly while there is no subscription id, a fresh id subscribes the dead-letter queue and is unsubscribed; otherwise nothing happens |
| Consumers.Consumer.CreateQueue | django_outbox_pattern/consumers.py:104-107 | the subscription id is drawn only when there is none, then the destination is subscribed with it |
| Consumers.Consumer.CreateQueues | django_outbox_pattern/consumers.py:86-88 | a missing destination raises; otherwise the subscription id is `StartId` and the events are those of `StartEvents`: the dead-letter declaration when there was no id, the subscription, the start record |
| Consumers.Consumer.Subscribed | django_outbox_pattern/consumers.py:87-88 | after a subscription the start is logged with the id |
| Consumers.Consumer.Start | django_outbox_pattern/consumers.py:81-88 | connect, store the callback, destination and queue name, then declare the queues as `StartEvents` says |
| Consumers.Consumer.Unsubscribe | django_outbox_pattern/consumers.py:129-132 | the subscription is cancelled, logged and the id cleared |
| Consumers.Consumer.Stop | django_outbox_pattern/consumers.py:90-96 | only a started, connected consumer unsubscribes, drops its listener and disconnects; otherwise it only logs |
| Consumers.Consumer.RemoveOldMessages | django_outbox_pattern/consumers.py:134-140 | with the cache flag set nothing is deleted; otherwise exactly the inbox rows added before the cutoff are; the flag is set afterwards |
| Consumers.Consumer.RunCallback | django_outbox_pattern/consumers.py:60 | the payload's flags, the inbox and the trace are those of the callback's calls in order; a raise in an atomic callback rolls the inbox back |
| Consumers.Consumer.RunStep | django_outbox_pattern/consumers.py:60 | one call keeps the relation of the flags, inbox and trace to the calls made so far |
| Consumers.Consumer.Decode | django_outbox_pattern/consumers.py:41-44 | the decoded document, or the raw text with an error logged |
| Consumers.Consumer.Discard | django_outbox_pattern/consumers.py:49-53 | a duplicate closes the connections, is logged and acked |
| Consumers.Consumer.Settle | django_outbox_pattern/consumers.py:59-73 | after the callback, `acked`/`nacked` hold exactly as `Settlement` says and the trace grows by `HandledEvents` before the sweep |
| Consumers.Consumer.Conclude | django_outbox_pattern/consumers.py:61-73 | a raise is logged and nacked, a save acked, anything else warned about |
| Consumers.Consumer.Process | django_outbox_pattern/consumers.py:59-79 | the try statement with its sweep and the closing of the connections |
| Consumers.Consumer.MessageHandler | django_outbox_pattern/consumers.py:40-79 | the call satisfies `HandlerSpec`: an unreachable inbox raises, a taken key is a duplicate, and otherwise the callback's effect is kept, rolled back or answered, then the inbox is swept |
| Decorators.ConfigFor | django_outbox_pattern/decorators.py:14-18 | a config with only a destination leaves fields, serializer and version unset |
| Decorators.SerializedGet | django_outbox_pattern/decorators.py:57 | a field is serialized with its own value exactly when it is selected |
| Decorators.SerializedWf | django_outbox_pattern/decorators.py:57 | the serialized fields form a dictionary |
| Decorators.ProjectionMeaning | django_outbox_pattern/decorators.py:56-61 | the projection holds each selected field with its value, `id` with the primary key unless a selected field is called `id`, and nothing else |
| Decorators.Serializer | django_outbox_pattern/decorators.py:56-61 | the loop builds exactly the projection |
| Decorators.GetBody | django_outbox_pattern/decorators.py:48-53 | the body is the named method's document when the instance has it, otherwise the projection |
| Decorators.BodyMeaning | django_outbox_pattern/decorators.py:48-53 | a serializer method the instance has decides the body whatever the field list; a missing or unnamed one falls back to the projection |
| Decorators.RecordMeaning | django_outbox_pattern/decorators.py:42-45 | the record goes to the config's destination, suffixed by a non-empty version, is SCHEDULE and carries the body |
| Decorators.CreationMakes | django_outbox_pattern/decorators.py:42-45 | the record maker of a save builds `Record` for each config and key |
| Decorators.CreationKeyed | django_outbox_pattern/decorators.py:42-45 | each record is keyed by the key it was built with |
| Decorators.RecordsMeaning | django_outbox_pattern/decorators.py:28-29 | one record per config, in config order |
| Decorators.RecordsKeys | django_outbox_pattern/decorators.py:28-29 | a key none of the draws produced is not among the records' keys |
| Decorators.SavedUpToFresh | django_outbox_pattern/decorators.py:28-29 | with fresh keys, saving the records of the first `n` configs appends them in order |
| Decorators.PublishedFor | django_outbox_pattern/decorators.py:24-29 | with fresh keys, a save with `stop=False` appends exactly one record per config, in config order, each to its (versioned) destination with its body |
| Decorators.SavedUpToStep | django_outbox_pattern/decorators.py:28-29 | saving the records of one more config is one more `save` |
| Decorators.PublishModel.constructor | django_outbox_pattern/decorators.py:23 | the instance keeps the outbox, its configs and its own save |
| Decorators.PublishModel.CreatePublished | django_outbox_pattern/decorators.py:42-45 | the outbox gains the config's record under a freshly drawn key |
| Decorators.PublishModel.CreateAll | django_outbox_pattern/decorators.py:28-29 | the outbox is `SavedUpTo` for all configs |
| Decorators.PublishModel.Save | django_outbox_pattern/decorators.py:24-29 | the instance is saved; with `stop` the outbox is unchanged, otherwise it holds `SavedUpTo` for all configs |
| Purge.BaseFilter | django_outbox_pattern/management/commands/purge.py:30-37 | `_base_filter`: rows added at or before the cutoff with a settled status, SCHEDULE included on request; `BaseFilterSelects` states it |
| Purge.BaseFilterSelects | django_outbox_pattern/management/commands/purge.py:30-37 | the filter selects exactly the rows added at or before the cutoff in SUCCEEDED or FAILED, or SCHEDULE when asked |
| Purge.PurgeInclusivePruneStrict | django_outbox_pattern/management/commands/purge.py:31 | a row added exactly at the cutoff is purged but survives the consumers' strict pruning |
| Purge.ScheduledNeedsFlag | django_outbox_pattern/management/commands/purge.py:33-34 | a SCHEDULE row is never purged without `--include-scheduled` |
| Purge.BatchesMeaning | django_outbox_pattern/management/commands/purge.py:47-52 | the number of batches is the least number of batches of size `b` that cover the total |
| Purge.CountedAll | django_outbox_pattern/management/commands/purge.py:47-52 | once all rows are counted deleted, the batches taken are `Batches(b, total)` |
| Purge.BatchStep | django_outbox_pattern/management/commands/purge.py:51-52 | one more batch brings the count to `min((k + 1) * b, total)` |
| Purge.ProgressMeaning | django_outbox_pattern/management/commands/purge.py:53 | one progress record per batch, the i-th reporting `min((i + 1) * b, total)` of the total |
| Purge.LastProgressIsTotal | django_outbox_pattern/management/commands/purge.py:47-53 | the last progress record reports every matching row deleted |
| Purge.BatchesOfTwo | tests/integration/test_purge_command.py:101-113 | with batch size 2, twelve matching rows take six batches, reported deleted 2, 4, …, 12 of 12 |
| Purge.DryRunEvents | django_outbox_pattern/management/commands/purge.py:42-44 | a dry run logs what it would delete and then still logs the count as deleted |
| Purge.PurgedTableMeaning | django_outbox_pattern/management/commands/purge.py:61-63 | a row survives a purge that deletes exactly when it is younger than the cutoff or not in a purged status |
| Purge.EmptiedTable | django_outbox_pattern/management/commands/purge.py:47-52 | a table with no matching rows left, whose other rows are those it started with, is the purged table |
| Purge.Command.constructor | django_outbox_pattern/management/commands/purge.py:19 | the command works on the database and trace given |
| Purge.Command.DeleteBatch | django_outbox_pattern/management/commands/purge.py:39-55 | a dry run deletes nothing; a negative batch size raises; a zero one deletes nothing; otherwise exactly the matching rows are deleted with one progress record per batch |
| Purge.Command.DeleteOneBatch | django_outbox_pattern/management/commands/purge.py:47-53 | the next batch is deleted and the running count logged |
| Purge.Command.DeleteInBatches | django_outbox_pattern/management/commands/purge.py:47-53 | all matching rows are deleted, the others kept, with `Progress` logged |
| Purge.Command.PurgeTable | django_outbox_pattern/management/commands/purge.py:57-64 | an unreachable database raises after the first record; otherwise the matching rows are deleted when the options delete, and the records are `PurgeEvents` |
| Purge.Command.PurgeSelected | django_outbox_pattern/management/commands/purge.py:86-96 | both `--purge-*-only` flags are refused; otherwise the inbox, then the outbox, are purged as the flags allow, then `Done!` |
| Purge.Command.Announce | django_outbox_pattern/management/commands/purge.py:67-84 | the two banner records |
| Purge.Command.Handle | django_outbox_pattern/management/commands/purge.py:66-96 | the banner, then the selected purges, with both tables left as `PurgedIf` says |

## Left out

- I/O, logging text and STOMP framing: log records are named events without their wording, and a frame is its body, destination and headers.
- Concurrency is not modelled: the relay, the consumer and the broker's callbacks run one at a time.
- The Django ORM is modelled as sequences of rows, and a query is the function of the rows it reads. Chunked iteration in the relay (`iterator(chunk_size=…)`) is a plain pass over the due rows.
- Django's `serialize("json", …)` is modelled abstractly, as the instance's field dictionary restricted to the selected fields.
- `import_string` is a set of importable dotted paths; what an imported class or function then does is not modelled.
- `timezone.now()`, `uuid.uuid4()`, `get_uuid()` and `random.uniform(0, 1)` are parameters or scripted draws. Times are integer seconds.
- Reals stand for Python floats, without rounding.
- The Django `transaction.atomic` in the decorated `save` is not modelled: a failure inside it, which would roll back the model's own row and the outbox rows, does not arise in the model.
- A callback's own atomic block is modelled only as a rollback of the inbox rows written inside it.
- `Purge.Command.Handle`: one `now` serves both tables, while the source reads the clock once per table.
- `Producers.Producer.PublishMessageFromDatabase` and `Producers.Transition`: one `now` serves the whole relay pass: the due filter (django_outbox_pattern/producers.py:104), each sweep's cutoff (django_outbox_pattern/producers.py:93), each FAILED row's new expiry (django_outbox_pattern/producers.py:122), the headers' send time and the `added` stamp of a re-inserted row. The source reads the clock afresh each time, after the retry sleeps of the rows before, so its cutoffs and expiries come later than the model's.
- The negative batch size of `purge` raising is Django's refusal of negative slices.
- `get_listener`, `set_listener` and `remove_listener` are recorded events; the listener registry itself is not modelled.
- `__enter__`/`__exit__` of the producer are `Start`/`Stop`.
- `Settings.Setting`: only setting names are modelled as attributes; other attribute access on the object is not.
- `Settings.Setting.Attr`: `setattr` and `delattr` on the instance are the `attrs` map.
- The module-level `settings = Setting(None, DEFAULTS, IMPORT_STRINGS)` and the `setting_changed.connect` registration are not modelled; `Settings.ReloadSettings` is the handler.
- `Listeners.ConsumerListener.OnMessage`: a guard error is returned as a value instead of propagating out of the broker's receiver thread.
- `Bases.Base.Connect`: the broker's answers are a finite script and an exhausted script accepts, so `connect()` always returns in the model. In the source the 1024th refusal in a row raises `OverflowError` (see `Bases.Backoff`), which is not a `StompException` and so escapes `connect()` (django_outbox_pattern/bases.py:19-25); the model keeps waiting instead.
- `Bases.Backoff`: computed on unbounded integers. In the source `2**self.attempts + random.uniform(0, 1)` (django_outbox_pattern/bases.py:43) converts to a float, so from the 1024th refusal in a row it raises `OverflowError` instead of answering the maximum backoff; the model keeps waiting the maximum.
- `Producers.Producer.PublishMessageFromDatabase`: whether the database answers is fixed for a whole call, so a `DatabaseError` raised after `start()` (django_outbox_pattern/producers.py:112-131) cannot occur. In the source such an error skips the remaining rows and `stop()`, leaving the connection open.
- `Consumers.Consumer.Process`: for the same reason a failure of the sweep inside the `finally` (django_outbox_pattern/consumers.py:75-79) cannot occur.
- `Payloads.Payload.Save`: on a clash with another row's `msg_id` it returns `false` and leaves the inbox unchanged, where Django raises `IntegrityError`; in use that error leaves the callback and the delivery is nacked. `message_handler` checks for the key before it runs the callback.
- `Producers.Producer.Stop`: a disconnect never fails in the model, so the error that `stop()` logs and swallows (django_outbox_pattern/producers.py:41-44) does not arise.
- The consumer's `subscribe_headers` is a field of each consumer. In the source it is the one cached `DEFAULT_STOMP_QUEUE_HEADERS` dictionary, which every `_subscribe` updates in place (django_outbox_pattern/consumers.py:37,115); that sharing between consumers is not modelled. The entries written are the same.
- The inbox key `msg_id` keeps the header's value as it is. Django's `CharField` (django_outbox_pattern/models.py:70) stores it as text, so the integer `1` and the text `"1"` are two keys in the model but one row in the database.

/**
 * django_outbox_pattern/management/commands/purge.py: the `purge` management
 * command, which deletes old settled rows from the outbox and the inbox in batches.
 */
module Purge {
  import opened Wrappers
  import opened Choices
  import opened Models
  import opened Tables
  import opened Store
  import opened World

  /** The command-line options, after argparse. */
  datatype Options = Options(
    days: int,
    dryRun: bool,
    receivedOnly: bool,
    publishedOnly: bool,
    includeScheduled: bool,
    batchSize: int)

  /** What the command is run with when no option is given. */
  const Defaults := Options(30, false, false, false, false, 500)

  /** Why a purge of one table stopped with an exception. */
  datatype Failure =
    | DatabaseError   // a query on a database that cannot be reached
    | NegativeSlice   // `queryset[:batch_size]` with a negative batch size

  function Min(a: nat, b: nat): nat {
    if a < b then a else b
  }

  /** `_meta.verbose_name` of each model. */
  function ModelName(m: Model): string {
    match m
    case ReceivedModel => "received"
    case PublishedModel => "published"
  }

  /** `_base_filter`: added at or before `days` days ago and in a settled status (or scheduled, when asked). */
  function BaseFilter(days: int, includeScheduled: bool, now: Time): Criterion {
    PurgeSelection(DaysAgo(now, days), {Succeeded, Failed} + (if includeScheduled then {Schedule} else {}))
  }

  /** The base filter selects exactly the rows no younger than the cutoff whose status is one of those named. */
  lemma BaseFilterSelects(days: int, includeScheduled: bool, now: Time, r: Row)
    ensures Hit(r, BaseFilter(days, includeScheduled, now)) <==>
            r.added <= now - days * Day &&
            (r.status == Succeeded || r.status == Failed || (includeScheduled && r.status == Schedule))
  {
  }

  /**
   * The purge's cutoff is inclusive while the consumer's pruning of the inbox is strict:
   * a succeeded row added exactly `days` days ago is purged but survives the pruning.
   */
  lemma PurgeInclusivePruneStrict(days: int, now: Time, r: Row)
    requires r.added == DaysAgo(now, days) && r.status == Succeeded
    ensures Hit(r, BaseFilter(days, false, now))
    ensures !Hit(r, AddedBefore(DaysAgo(now, days)))
  {
  }

  /** A scheduled row is never purged unless `--include-scheduled` is given. */
  lemma ScheduledNeedsFlag(days: int, now: Time, r: Row)
    requires r.status == Schedule
    ensures !Hit(r, BaseFilter(days, false, now))
  {
  }

  /** The number of batches a positive batch size takes to delete `total` rows. */
  function Batches(b: nat, total: nat): nat
    requires b > 0
  {
    (total + b - 1) / b
  }

  /** `Batches` is the least number of batches whose sizes cover `total`. */
  lemma BatchesMeaning(b: nat, total: nat, k: nat)
    requires b > 0
    ensures k == Batches(b, total) <==> total <= k * b && (k == 0 || (k - 1) * b < total)
  {
    var q := Batches(b, total);
    assert q * b <= total + b - 1 < q * b + b;
    if k < q {
      assert k * b <= (q - 1) * b;
    } else if k > q {
      assert (k - 1) * b >= q * b;
    }
  }

  /** After `k` batches of `b`, `deleted` rows are gone and the `k`-th batch was not empty. */
  predicate Counted(b: nat, total: nat, k: nat, deleted: nat) {
    deleted == Min(k * b, total) && (k == 0 || (k - 1) * b < total)
  }

  /** Once all `total` rows are counted as deleted, the number of batches is `Batches(b, total)`. */
  lemma CountedAll(b: nat, total: nat, k: nat)
    requires b > 0 && Counted(b, total, k, total)
    ensures k == Batches(b, total)
  {
    BatchesMeaning(b, total, k);
  }

  /** One more batch of at most `b` rows, while some of `total` are left, brings the count to `min((k + 1) * b, total)`. */
  lemma BatchStep(b: nat, total: nat, k: nat)
    requires b > 0 && Min(k * b, total) < total
    ensures Min(k * b, total) + Min(b, total - Min(k * b, total)) == Min((k + 1) * b, total)
    ensures k * b < total
  {
    assert (k + 1) * b == k * b + b;
  }

  /** The progress records of the first `k` batches: after batch `i`, `min(i * b, total)` are deleted. */
  function Progress(b: nat, total: nat, k: nat, model: string): seq<Event> {
    if k == 0 then []
    else Progress(b, total, k - 1, model) + [Log(Info, BatchDeleted(Min(k * b, total), total, model))]
  }

  /** One progress record per batch, the `i`-th reporting `min((i + 1) * b, total)` of `total`. */
  lemma {:induction false} ProgressMeaning(b: nat, total: nat, k: nat, model: string)
    ensures |Progress(b, total, k, model)| == k
    ensures forall i :: 0 <= i < k ==>
              Progress(b, total, k, model)[i] == Log(Info, BatchDeleted(Min((i + 1) * b, total), total, model))
  {
    if k > 0 {
      ProgressMeaning(b, total, k - 1, model);
    }
  }

  /** The last progress record of a complete batched delete reports every matching row deleted. */
  lemma LastProgressIsTotal(b: nat, total: nat, model: string)
    requires b > 0 && total > 0
    ensures var p := Progress(b, total, Batches(b, total), model);
            p != [] && p[|p| - 1] == Log(Info, BatchDeleted(total, total, model))
  {
    var k := Batches(b, total);
    BatchesMeaning(b, total, k);
    assert k > 0;
  }

  /** The log records `_delete_batch` writes when it does not raise. */
  function DeleteBatchEvents(m: Model, total: nat, b: int, dryRun: bool): seq<Event> {
    if dryRun then [Log(Warning, DryRunWouldDelete(total, ModelName(m)))]
    else (if b > 0 then Progress(b, total, Batches(b, total), ModelName(m)) else []) +
         [Log(Info, DeletedTotalOf(total, ModelName(m)))]
  }

  /** With a batch size of 2, twelve matching rows are reported deleted 2, 4, ..., 12 at a time. */
  lemma BatchesOfTwo()
    ensures Batches(2, 12) == 6
    ensures Progress(2, 12, Batches(2, 12), "published") ==
            [Log(Info, BatchDeleted(2, 12, "published")), Log(Info, BatchDeleted(4, 12, "published")),
             Log(Info, BatchDeleted(6, 12, "published")), Log(Info, BatchDeleted(8, 12, "published")),
             Log(Info, BatchDeleted(10, 12, "published")), Log(Info, BatchDeleted(12, 12, "published"))]
  {
    ProgressMeaning(2, 12, 6, "published");
  }

  /** A dry run logs what it would delete, and then still logs the count as deleted. */
  lemma DryRunEvents(m: Model, total: nat, o: Options)
    requires o.dryRun
    ensures PurgeEvents(m, total, o) ==
            [Log(Info, PurgingTable(ModelName(m), o.days)), Log(Warning, DryRunWouldDelete(total, ModelName(m))),
             Log(Info, DeletedCount(total, ModelName(m)))]
    ensures !Deletes(o)
  {
  }

  /** The log records `_purge` writes when it does not raise. */
  function PurgeEvents(m: Model, total: nat, o: Options): seq<Event> {
    [Log(Info, PurgingTable(ModelName(m), o.days))] +
    DeleteBatchEvents(m, total, o.batchSize, o.dryRun) +
    [Log(Info, DeletedCount(total, ModelName(m)))]
  }

  /** Whether a purge that does not raise deletes anything (a zero-size slice is empty, so it deletes nothing). */
  predicate Deletes(o: Options) {
    !o.dryRun && o.batchSize > 0
  }

  /** A table after a `_purge` that deletes when `deletes` holds and leaves it alone otherwise. */
  function PurgedIf<R>(deletes: bool, rows: seq<R>, view: R -> Row, c: Criterion): seq<R> {
    if deletes then Kept(rows, view, c) else rows
  }

  /** The two records `handle` always starts with. */
  function Banner(o: Options): seq<Event> {
    [Log(Info, PurgeStarted),
     Log(Info, PurgeOptions(o.days, o.dryRun, o.receivedOnly, o.publishedOnly, o.includeScheduled, o.batchSize))]
  }

  /** The log records of the purges `handle` runs when the flags allow it, and of the final `Done!`. */
  function PlannedEvents(o: Options, receivedTotal: nat, publishedTotal: nat): seq<Event> {
    (if !o.publishedOnly then PurgeEvents(ReceivedModel, receivedTotal, o) else []) +
    (if !o.receivedOnly then PurgeEvents(PublishedModel, publishedTotal, o) else []) +
    [Log(Info, PurgeDone)]
  }

  /** What `handle` logs after its banner when it does not raise: a refusal of both flags, or the purges. */
  function SelectedEvents(o: Options, receivedTotal: nat, publishedTotal: nat): seq<Event> {
    if o.receivedOnly && o.publishedOnly then [Log(Warning, OnlyFlagsConflict)]
    else PlannedEvents(o, receivedTotal, publishedTotal)
  }

  /** Whether a purge of one table raises, and with what. */
  function PurgeFailure(up: bool, o: Options): Option<Failure> {
    if !up then Some(DatabaseError)
    else if !o.dryRun && o.batchSize < 0 then Some(NegativeSlice)
    else None
  }

  /** The table `handle` purges first when the flags are compatible. */
  function FirstModel(o: Options): Model {
    if o.publishedOnly then PublishedModel else ReceivedModel
  }

  /** A row survives a purge that deletes exactly when it is younger than the cutoff or not in a purged status. */
  lemma PurgedTableMeaning(rows: seq<Received>, o: Options, now: Time, x: Received)
    ensures x in Kept(rows, ReceivedRow, BaseFilter(o.days, o.includeScheduled, now)) <==>
            x in rows &&
            (x.added > now - o.days * Day || x.status !in {Succeeded, Failed} + (if o.includeScheduled then {Schedule} else {}))
    ensures Hits(Kept(rows, ReceivedRow, BaseFilter(o.days, o.includeScheduled, now)), ReceivedRow,
                 BaseFilter(o.days, o.includeScheduled, now)) == 0
  {
    KeptMembers(rows, ReceivedRow, BaseFilter(o.days, o.includeScheduled, now), x);
    KeptNoHits(rows, ReceivedRow, BaseFilter(o.days, o.includeScheduled, now));
  }

  /** A table without matching rows whose unmatched rows are those of `r0` (or `p0`) is `r0` (or `p0`) purged. */
  lemma EmptiedTable(m: Model, c: Criterion, received: seq<Received>, published: seq<Published>,
                     r0: seq<Received>, p0: seq<Published>)
    requires m == ReceivedModel ==> Hits(received, ReceivedRow, c) == 0 && Kept(received, ReceivedRow, c) == Kept(r0, ReceivedRow, c)
    requires m == PublishedModel ==> Hits(published, PublishedRow, c) == 0 && Kept(published, PublishedRow, c) == Kept(p0, PublishedRow, c)
    ensures m == ReceivedModel ==> received == Kept(r0, ReceivedRow, c)
    ensures m == PublishedModel ==> published == Kept(p0, PublishedRow, c)
  {
    match m {
      case ReceivedModel => NoHitsAllKept(received, ReceivedRow, c);
      case PublishedModel => NoHitsAllKept(published, PublishedRow, c);
    }
  }

  class Command {
    const db: Database
    const env: Env

    constructor(db: Database, env: Env)
      ensures this.db == db && this.env == env
    {
      this.db := db;
      this.env := env;
    }

    /**
     * `_delete_batch`: count the matching rows, then delete them `b` at a time, logging
     * progress after each batch, until none is left.
     */
    method DeleteBatch(m: Model, c: Criterion, b: int, dryRun: bool) returns (failure: Option<Failure>)
      requires db.Valid()
      modifies db, env
      ensures db.Valid() && db.up == old(db.up)
      ensures failure == PurgeFailure(old(db.up), Options(0, dryRun, false, false, false, b))
      ensures failure.Some? ==> env.trace == old(env.trace) && unchanged(db)
      ensures failure.None? ==> env.trace == old(env.trace) + DeleteBatchEvents(m, old(db.Matching(m, c)), b, dryRun)
      ensures failure.None? && !dryRun && b > 0 ==>
                (m == ReceivedModel ==> db.received == Kept(old(db.received), ReceivedRow, c) && db.published == old(db.published)) &&
                (m == PublishedModel ==> db.published == Kept(old(db.published), PublishedRow, c) && db.received == old(db.received))
      ensures failure.None? && (dryRun || b <= 0) ==> unchanged(db)
      ensures env.OnlyTrace()
    {
      if !db.up {
        return Some(DatabaseError);
      }
      var total := db.Matching(m, c);
      var name := ModelName(m);
      if dryRun {
        env.Emit(Log(Warning, DryRunWouldDelete(total, name)));
        return None;
      }
      if b < 0 {
        return Some(NegativeSlice);
      }
      if b > 0 {
        DeleteInBatches(m, c, b);
      }
      env.Emit(Log(Info, DeletedTotalOf(total, name)));
      failure := None;
    }

    /** One pass of the loop of `_delete_batch`: delete the next batch and log the running count. */
    method DeleteOneBatch(m: Model, c: Criterion, b: nat, total: nat, k: nat, deleted: nat) returns (deleted': nat)
      requires db.Valid() && b > 0 && db.Matching(m, c) > 0
      requires db.Matching(m, c) == total - deleted && Counted(b, total, k, deleted)
      modifies db, env
      ensures db.Valid() && db.up == old(db.up)
      ensures db.Matching(m, c) == total - deleted'
      ensures Counted(b, total, k + 1, deleted') && deleted' == Min((k + 1) * b, total)
      ensures Kept(db.received, ReceivedRow, c) == Kept(old(db.received), ReceivedRow, c)
      ensures Kept(db.published, PublishedRow, c) == Kept(old(db.published), PublishedRow, c)
      ensures m == ReceivedModel ==> db.published == old(db.published)
      ensures m == PublishedModel ==> db.received == old(db.received)
      ensures env.Appended(Log(Info, BatchDeleted(deleted', total, ModelName(m))))
    {
      var found := Min(b, db.Matching(m, c));
      db.DropMatching(m, c, b);
      BatchStep(b, total, k);
      deleted' := deleted + found;
      env.Emit(Log(Info, BatchDeleted(deleted', total, ModelName(m))));
    }

    /** The loop of `_delete_batch`: delete the first `b` matching rows until none is left, logging progress. */
    method DeleteInBatches(m: Model, c: Criterion, b: nat)
      requires db.Valid() && b > 0
      modifies db, env
      ensures db.Valid() && db.up == old(db.up)
      ensures env.trace == old(env.trace) + Progress(b, old(db.Matching(m, c)), Batches(b, old(db.Matching(m, c))), ModelName(m))
      ensures m == ReceivedModel ==> db.received == Kept(old(db.received), ReceivedRow, c) && db.published == old(db.published)
      ensures m == PublishedModel ==> db.published == Kept(old(db.published), PublishedRow, c) && db.received == old(db.received)
      ensures env.OnlyTrace()
    {
      var total := db.Matching(m, c);
      var name := ModelName(m);
      var deleted: nat := 0;
      var k: nat := 0;
      while db.Matching(m, c) > 0
        invariant db.Valid() && db.up == old(db.up)
        invariant db.Matching(m, c) == total - deleted
        invariant Counted(b, total, k, deleted)
        invariant Kept(db.received, ReceivedRow, c) == Kept(old(db.received), ReceivedRow, c)
        invariant Kept(db.published, PublishedRow, c) == Kept(old(db.published), PublishedRow, c)
        invariant m == ReceivedModel ==> db.published == old(db.published)
        invariant m == PublishedModel ==> db.received == old(db.received)
        invariant env.trace == old(env.trace) + Progress(b, total, k, name)
        invariant env.OnlyTrace()
        decreases db.Matching(m, c)
      {
        deleted := DeleteOneBatch(m, c, b, total, k, deleted);
        k := k + 1;
      }
      CountedAll(b, total, k);
      EmptiedTable(m, c, db.received, db.published, old(db.received), old(db.published));
    }

    /** `_purge`: announce the table, count its matching rows, delete them in batches and log the count. */
    method PurgeTable(m: Model, o: Options, now: Time) returns (failure: Option<Failure>)
      requires db.Valid()
      modifies db, env
      ensures db.Valid() && db.up == old(db.up)
      ensures failure == PurgeFailure(old(db.up), o)
      ensures failure.Some? ==>
                env.trace == old(env.trace) + [Log(Info, PurgingTable(ModelName(m), o.days))] && unchanged(db)
      ensures failure.None? ==>
                env.trace == old(env.trace) + PurgeEvents(m, old(db.Matching(m, BaseFilter(o.days, o.includeScheduled, now))), o)
      ensures failure.None? && Deletes(o) ==>
                (m == ReceivedModel ==>
                   db.received == Kept(old(db.received), ReceivedRow, BaseFilter(o.days, o.includeScheduled, now)) &&
                   db.published == old(db.published)) &&
                (m == PublishedModel ==>
                   db.published == Kept(old(db.published), PublishedRow, BaseFilter(o.days, o.includeScheduled, now)) &&
                   db.received == old(db.received))
      ensures failure.None? && !Deletes(o) ==> unchanged(db)
      ensures env.OnlyTrace()
    {
      var name := ModelName(m);
      env.Emit(Log(Info, PurgingTable(name, o.days)));
      if !db.up {
        return Some(DatabaseError);
      }
      var c := BaseFilter(o.days, o.includeScheduled, now);
      var total := db.Matching(m, c);
      failure := DeleteBatch(m, c, o.batchSize, o.dryRun);
      if failure.None? {
        env.Emit(Log(Info, DeletedCount(total, name)));
      }
    }
  

    /** `handle` after its banner: the check of the two `--purge-*-only` flags, the guarded `_purge` calls, `Done!`. */
    method PurgeSelected(o: Options, now: Time) returns (failure: Option<Failure>)
      requires db.Valid()
      modifies db, env
      ensures db.Valid() && db.up == old(db.up)
      ensures failure == (if o.receivedOnly && o.publishedOnly then None else PurgeFailure(old(db.up), o))
      ensures failure.Some? ==>
                env.trace == old(env.trace) + [Log(Info, PurgingTable(ModelName(FirstModel(o)), o.days))] &&
                unchanged(db)
      ensures failure.None? ==>
                env.trace == old(env.trace) +
                             SelectedEvents(o, old(db.Matching(ReceivedModel, BaseFilter(o.days, o.includeScheduled, now))),
                                               old(db.Matching(PublishedModel, BaseFilter(o.days, o.includeScheduled, now))))
      ensures failure.None? ==>
                db.received == PurgedIf(!o.publishedOnly && Deletes(o), old(db.received), ReceivedRow, BaseFilter(o.days, o.includeScheduled, now)) &&
                db.published == PurgedIf(!o.receivedOnly && Deletes(o), old(db.published), PublishedRow, BaseFilter(o.days, o.includeScheduled, now))
      ensures env.OnlyTrace()
    {
      if o.receivedOnly && o.publishedOnly {
        env.Emit(Log(Warning, OnlyFlagsConflict));
        return None;
      }
      var c := BaseFilter(o.days, o.includeScheduled, now);
      ghost var t0 := env.trace;
      ghost var receivedTotal := db.Matching(ReceivedModel, c);
      ghost var publishedTotal := db.Matching(PublishedModel, c);
      ghost var a: seq<Event> := [];
      if !o.publishedOnly {
        failure := PurgeTable(ReceivedModel, o, now);
        if failure.Some? {
          return;
        }
        a := PurgeEvents(ReceivedModel, receivedTotal, o);
      }
      assert env.trace == t0 + a;
      assert db.Matching(PublishedModel, c) == publishedTotal;
      ghost var b: seq<Event> := [];
      if !o.receivedOnly {
        failure := PurgeTable(PublishedModel, o, now);
        if failure.Some? {
          return;
        }
        b := PurgeEvents(PublishedModel, publishedTotal, o);
      }
      assert env.trace == t0 + a + b;
      failure := None;
      env.Emit(Log(Info, PurgeDone));
      Regroup(t0, a, b, [Log(Info, PurgeDone)]);
    }

    /** The first two log records of `handle`. */
    method Announce(o: Options)
      modifies env
      ensures env.trace == old(env.trace) + Banner(o)
      ensures env.OnlyTrace()
    {
      env.Emit(Log(Info, PurgeStarted));
      env.Emit(Log(Info, PurgeOptions(o.days, o.dryRun, o.receivedOnly, o.publishedOnly, o.includeScheduled, o.batchSize)));
    }

    /**
     * `handle`: log the options; refuse the two `--purge-*-only` flags together; otherwise
     * purge the inbox, then the outbox, as the flags allow. One `now` serves both tables.
     */
    method Handle(o: Options, now: Time) returns (failure: Option<Failure>)
      requires db.Valid()
      modifies db, env
      ensures db.Valid() && db.up == old(db.up)
      ensures failure == (if o.receivedOnly && o.publishedOnly then None else PurgeFailure(old(db.up), o))
      ensures failure.Some? ==>
                env.trace == old(env.trace) + Banner(o) + [Log(Info, PurgingTable(ModelName(FirstModel(o)), o.days))] &&
                unchanged(db)
      ensures failure.None? ==>
                env.trace == old(env.trace) + Banner(o) +
                             SelectedEvents(o, old(db.Matching(ReceivedModel, BaseFilter(o.days, o.includeScheduled, now))),
                                               old(db.Matching(PublishedModel, BaseFilter(o.days, o.includeScheduled, now))))
      ensures failure.None? ==>
                db.received == PurgedIf(!o.publishedOnly && Deletes(o), old(db.received), ReceivedRow, BaseFilter(o.days, o.includeScheduled, now)) &&
                db.published == PurgedIf(!o.receivedOnly && Deletes(o), old(db.published), PublishedRow, BaseFilter(o.days, o.includeScheduled, now))
      ensures env.OnlyTrace()
    {
      Announce(o);
      failure := PurgeSelected(o, now);
    }
  }
}

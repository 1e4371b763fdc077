/**
 * The two tables of django_outbox_pattern/models.py as they sit in the
 * database: `published` (the outbox) and `received` (the inbox).
 */
module Store {
  import opened Wrappers
  import opened Values
  import opened Models
  import opened Tables

  /** The unique constraint on `msg_id`; NULL ids never clash. */
  predicate UniqueMsgIds(rows: seq<Received>) {
    forall x, y :: x in rows && y in rows && x.msgId.Some? && x.msgId == y.msgId ==> x.id == y.id
  }

  /** `Received.objects.filter(msg_id=m).exists()`; for `m = None` Django looks for a NULL id. */
  predicate MsgIdTaken(rows: seq<Received>, m: Option<HVal>) {
    exists x :: x in rows && x.msgId == m
  }

  /** Inserting `r` would break the unique constraint on `msg_id`. */
  predicate MsgIdClash(rows: seq<Received>, r: Received) {
    r.msgId.Some? && exists x :: x in rows && x.id != r.id && x.msgId == r.msgId
  }

  /**
   * The row `Published.save()` writes into the outbox `rows`: the record as
   * its `save` override prepares it. A loaded record is saved by an UPDATE of
   * its key; when no row has that key any more the UPDATE matches nothing and
   * Django falls back to an INSERT, whose `pre_save` of the `auto_now_add`
   * field `added` stamps it with now, as it does for a record being added.
   */
  function Stored(rows: seq<Published>, p: Published, now: Time, requestId: Option<string>): Published {
    var q := SavedForm(p, now, requestId);
    if p.id in Ids(rows, PublishedRow) then q else q.(added := now)
  }

  /**
   * A save changes `added` only when it ends in an INSERT: a record being
   * added, or one whose key is not in the table; everything else is the save
   * override's.
   */
  lemma StoredAdded(rows: seq<Published>, p: Published, now: Time, requestId: Option<string>)
    ensures var q := Stored(rows, p, now, requestId);
      q.(added := p.added) == SavedForm(p, now, requestId).(added := p.added) &&
      (p.adding || p.id !in Ids(rows, PublishedRow) ==> q.added == now) &&
      (!p.adding && p.id in Ids(rows, PublishedRow) ==> q.added == p.added)
  {
  }

  /** The two models whose tables the purge command works on. */
  datatype Model = ReceivedModel | PublishedModel

  class Database {
    var published: seq<Published>
    var received: seq<Received>
    /** Whether queries succeed; when false the first query raises `DatabaseError`. */
    var up: bool

    predicate Valid()
      reads this
    {
      UniqueIds(published, PublishedRow) &&
      UniqueIds(received, ReceivedRow) &&
      UniqueMsgIds(received) &&
      (forall p :: p in published ==> !p.adding)
    }

    constructor(up: bool)
      ensures published == [] && received == [] && this.up == up
      ensures Valid()
    {
      published := [];
      received := [];
      this.up := up;
    }

    /** `Published.save()`: the record is prepared by its `save` override, then updated by key or inserted. */
    method SavePublished(p: Published, now: Time, requestId: Option<string>) returns (q: Published)
      requires Valid()
      modifies this
      ensures q == Stored(old(published), p, now, requestId)
      ensures p.adding ==> q == SavedForm(p, now, requestId)
      ensures published == Upsert(old(published), PublishedRow, q)
      ensures received == old(received) && up == old(up)
      ensures Valid()
    {
      q := Stored(published, p, now, requestId);
      UpsertIds(published, PublishedRow, q);
      forall x | x in Upsert(published, PublishedRow, q)
        ensures !x.adding
      {
        UpsertMembers(published, PublishedRow, q, x);
      }
      published := Upsert(published, PublishedRow, q);
    }

    /** `Received.save()`: refused with an `IntegrityError` when another row holds the same `msg_id`. */
    method SaveReceived(r: Received) returns (ok: bool)
      requires Valid()
      modifies this
      ensures ok <==> !MsgIdClash(old(received), r)
      ensures received == if ok then Upsert(old(received), ReceivedRow, r) else old(received)
      ensures published == old(published) && up == old(up)
      ensures Valid()
    {
      ok := !MsgIdClash(received, r);
      if ok {
        var rows := Upsert(received, ReceivedRow, r);
        UpsertIds(received, ReceivedRow, r);
        forall x, y | x in rows && y in rows && x.msgId.Some? && x.msgId == y.msgId
          ensures x.id == y.id
        {
          UpsertMembers(received, ReceivedRow, r, x);
          UpsertMembers(received, ReceivedRow, r, y);
        }
        received := rows;
      }
    }

    /** `Published.objects.filter(c).delete()`. */
    method DeletePublished(c: Criterion)
      requires Valid()
      modifies this
      ensures published == Kept(old(published), PublishedRow, c)
      ensures received == old(received) && up == old(up)
      ensures Valid()
    {
      KeptIds(published, PublishedRow, c);
      forall x | x in Kept(published, PublishedRow, c)
        ensures !x.adding
      {
        KeptMembers(published, PublishedRow, c, x);
      }
      published := Kept(published, PublishedRow, c);
    }

    /** `Received.objects.filter(c).delete()`. */
    method DeleteReceived(c: Criterion)
      requires Valid()
      modifies this
      ensures received == Kept(old(received), ReceivedRow, c)
      ensures published == old(published) && up == old(up)
      ensures Valid()
    {
      var rows := Kept(received, ReceivedRow, c);
      KeptIds(received, ReceivedRow, c);
      forall x | x in rows
        ensures x in received
      {
        KeptMembers(received, ReceivedRow, c, x);
      }
      received := rows;
    }
    /** `filter(c).count()` on the table of model `m`. */
    function Matching(m: Model, c: Criterion): nat
      reads this
    {
      match m
      case ReceivedModel => Hits(received, ReceivedRow, c)
      case PublishedModel => Hits(published, PublishedRow, c)
    }

    /** `filter(pk__in=first n matching keys).delete()` on the table of model `m`. */
    method DropMatching(m: Model, c: Criterion, n: nat)
      requires Valid()
      modifies this
      ensures m == ReceivedModel ==> received == DropHits(old(received), ReceivedRow, c, n) && published == old(published)
      ensures m == PublishedModel ==> published == DropHits(old(published), PublishedRow, c, n) && received == old(received)
      ensures Matching(m, c) == old(Matching(m, c)) - (if n < old(Matching(m, c)) then n else old(Matching(m, c)))
      ensures Kept(received, ReceivedRow, c) == Kept(old(received), ReceivedRow, c)
      ensures Kept(published, PublishedRow, c) == Kept(old(published), PublishedRow, c)
      ensures up == old(up)
      ensures Valid()
    {
      DropHitsCount(received, ReceivedRow, c, n);
      DropHitsKept(received, ReceivedRow, c, n);
      DropHitsCount(published, PublishedRow, c, n);
      DropHitsKept(published, PublishedRow, c, n);
      match m {
        case ReceivedModel =>
          DropHitsIds(received, ReceivedRow, c, n);
          forall x | x in DropHits(received, ReceivedRow, c, n)
            ensures x in received
          {
            DropHitsMembers(received, ReceivedRow, c, n, x);
          }
          received := DropHits(received, ReceivedRow, c, n);
        case PublishedModel =>
          DropHitsIds(published, PublishedRow, c, n);
          forall x | x in DropHits(published, PublishedRow, c, n)
            ensures x in published
          {
            DropHitsMembers(published, PublishedRow, c, n, x);
          }
          published := DropHits(published, PublishedRow, c, n);
      }
    }

    /** The rollback of a `transaction.atomic` block: the inbox returns to the rows it held when the block began. */
    method RollbackReceived(rows: seq<Received>)
      requires Valid() && UniqueIds(rows, ReceivedRow) && UniqueMsgIds(rows)
      modifies this
      ensures received == rows && published == old(published) && up == old(up)
      ensures Valid()
    {
      received := rows;
    }
  }

  /** A row that the unique constraint admits cannot be inserted twice under another key. */
  lemma SavedRowBlocksItsMsgId(rows: seq<Received>, r: Received, s: Received)
    requires !MsgIdClash(rows, r) && r.msgId.Some?
    requires s.id != r.id && s.msgId == r.msgId
    ensures MsgIdClash(Upsert(rows, ReceivedRow, r), s)
  {
    UpsertMembers(rows, ReceivedRow, r, r);
  }

  /** Once a row with a NULL `msg_id` exists, every later lookup of a NULL id finds it. */
  lemma NullMsgIdTaken(rows: seq<Received>, r: Received)
    requires r.msgId.None?
    ensures MsgIdTaken(Upsert(rows, ReceivedRow, r), None)
  {
    UpsertMembers(rows, ReceivedRow, r, r);
  }

  /** A row that was admitted can be saved again: its own earlier copy does not clash with it. */
  lemma NoClashAfterOwnSave(rows: seq<Received>, r: Received)
    requires !MsgIdClash(rows, r)
    ensures !MsgIdClash(Upsert(rows, ReceivedRow, r), r)
  {
    forall x | x in Upsert(rows, ReceivedRow, r)
      ensures x in rows || x == r
    {
      UpsertMembers(rows, ReceivedRow, r, x);
    }
  }
}

/**
 * The table operations the ORM performs for the library, on a table held as a
 * sequence of rows in storage order: `filter(...).delete()`, deletion of the
 * first rows that match, and `save()` of one instance.
 */
module Tables {
  import opened Models
  import opened Choices

  /** The two row filters the library deletes by. */
  datatype Criterion =
    | AddedBefore(cutoff: Time)                              // added__lt=cutoff
    | PurgeSelection(cutoff: Time, statuses: set<Status>)    // added__lte=cutoff, status__in=statuses

  predicate Hit(r: Row, c: Criterion) {
    match c
    case AddedBefore(t) => r.added < t
    case PurgeSelection(t, st) => r.added <= t && r.status in st
  }

  /** The rows that do not match, in their order: the table after `filter(c).delete()`. */
  function Kept<R>(rows: seq<R>, view: R -> Row, c: Criterion): seq<R> {
    if rows == [] then []
    else if Hit(view(rows[0]), c) then Kept(rows[1..], view, c)
    else [rows[0]] + Kept(rows[1..], view, c)
  }

  /** `filter(c).count()`. */
  function Hits<R>(rows: seq<R>, view: R -> Row, c: Criterion): nat {
    if rows == [] then 0 else (if Hit(view(rows[0]), c) then 1 else 0) + Hits(rows[1..], view, c)
  }

  /** The table after deleting the first `n` matching rows. */
  function DropHits<R>(rows: seq<R>, view: R -> Row, c: Criterion, n: nat): seq<R> {
    if rows == [] || n == 0 then rows
    else if Hit(view(rows[0]), c) then DropHits(rows[1..], view, c, n - 1)
    else [rows[0]] + DropHits(rows[1..], view, c, n)
  }

  function Ids<R>(rows: seq<R>, view: R -> Row): set<string> {
    if rows == [] then {} else {view(rows[0]).id} + Ids(rows[1..], view)
  }

  /** The primary key is unique. */
  predicate UniqueIds<R>(rows: seq<R>, view: R -> Row) {
    rows == [] || (view(rows[0]).id !in Ids(rows[1..], view) && UniqueIds(rows[1..], view))
  }

  /** `save()` of an instance: the row with its primary key is replaced, or the instance is appended. */
  function Upsert<R>(rows: seq<R>, view: R -> Row, r: R): seq<R> {
    if rows == [] then [r]
    else if view(rows[0]).id == view(r).id then [r] + rows[1..]
    else [rows[0]] + Upsert(rows[1..], view, r)
  }

  /** A row survives `filter(c).delete()` exactly when it does not match. */
  lemma {:induction false} KeptMembers<R>(rows: seq<R>, view: R -> Row, c: Criterion, x: R)
    ensures x in Kept(rows, view, c) <==> x in rows && !Hit(view(x), c)
  {
    if rows != [] {
      KeptMembers(rows[1..], view, c, x);
    }
  }

  lemma {:induction false} KeptNoHits<R>(rows: seq<R>, view: R -> Row, c: Criterion)
    ensures Hits(Kept(rows, view, c), view, c) == 0
  {
    if rows != [] {
      KeptNoHits(rows[1..], view, c);
      if !Hit(view(rows[0]), c) {
        assert ([rows[0]] + Kept(rows[1..], view, c))[1..] == Kept(rows[1..], view, c);
      }
    }
  }

  /** Deleting the first `n` matching rows removes `min(n, hits)` of them. */
  lemma {:induction false} DropHitsCount<R>(rows: seq<R>, view: R -> Row, c: Criterion, n: nat)
    ensures Hits(DropHits(rows, view, c, n), view, c) ==
            Hits(rows, view, c) - (if n < Hits(rows, view, c) then n else Hits(rows, view, c))
  {
    if rows != [] && n != 0 {
      if Hit(view(rows[0]), c) {
        DropHitsCount(rows[1..], view, c, n - 1);
      } else {
        DropHitsCount(rows[1..], view, c, n);
        assert ([rows[0]] + DropHits(rows[1..], view, c, n))[1..] == DropHits(rows[1..], view, c, n);
      }
    }
  }

  /** Deleting matching rows never touches the rows that do not match. */
  lemma {:induction false} DropHitsKept<R>(rows: seq<R>, view: R -> Row, c: Criterion, n: nat)
    ensures Kept(DropHits(rows, view, c, n), view, c) == Kept(rows, view, c)
  {
    if rows != [] && n != 0 {
      if Hit(view(rows[0]), c) {
        DropHitsKept(rows[1..], view, c, n - 1);
      } else {
        DropHitsKept(rows[1..], view, c, n);
        assert ([rows[0]] + DropHits(rows[1..], view, c, n))[1..] == DropHits(rows[1..], view, c, n);
      }
    }
  }

  /** A table with no matching row is left as it is by the delete. */
  lemma {:induction false} NoHitsAllKept<R>(rows: seq<R>, view: R -> Row, c: Criterion)
    requires Hits(rows, view, c) == 0
    ensures Kept(rows, view, c) == rows
  {
    if rows != [] {
      NoHitsAllKept(rows[1..], view, c);
    }
  }

  lemma {:induction false} KeptIds<R>(rows: seq<R>, view: R -> Row, c: Criterion)
    ensures Ids(Kept(rows, view, c), view) <= Ids(rows, view)
    ensures UniqueIds(rows, view) ==> UniqueIds(Kept(rows, view, c), view)
  {
    if rows != [] {
      KeptIds(rows[1..], view, c);
      if !Hit(view(rows[0]), c) {
        assert ([rows[0]] + Kept(rows[1..], view, c))[1..] == Kept(rows[1..], view, c);
      }
    }
  }

  /** The key of every row is among the table's keys. */
  lemma {:induction false} IdsMember<R>(rows: seq<R>, view: R -> Row, x: R)
    requires x in rows
    ensures view(x).id in Ids(rows, view)
  {
    if rows[0] != x {
      IdsMember(rows[1..], view, x);
    }
  }

  /** In a table whose keys are unique, `filter(c).delete()` removes the key of every matching row. */
  lemma {:induction false} KeptDropsKey<R>(rows: seq<R>, view: R -> Row, c: Criterion, x: R)
    requires UniqueIds(rows, view) && x in rows && Hit(view(x), c)
    ensures view(x).id !in Ids(Kept(rows, view, c), view)
  {
    KeptIds(rows[1..], view, c);
    if rows[0] != x {
      KeptDropsKey(rows[1..], view, c, x);
      IdsMember(rows[1..], view, x);
    }
  }

  /** After `save()` the instance is in the table; every other row was there before. */
  lemma {:induction false} UpsertMembers<R>(rows: seq<R>, view: R -> Row, r: R, x: R)
    ensures r in Upsert(rows, view, r)
    ensures x in Upsert(rows, view, r) ==> x == r || x in rows
    ensures x in rows && view(x).id != view(r).id ==> x in Upsert(rows, view, r)
  {
    if rows != [] && view(rows[0]).id != view(r).id {
      UpsertMembers(rows[1..], view, r, x);
    }
  }

  lemma {:induction false} UpsertIds<R>(rows: seq<R>, view: R -> Row, r: R)
    ensures Ids(Upsert(rows, view, r), view) == Ids(rows, view) + {view(r).id}
    ensures UniqueIds(rows, view) ==> UniqueIds(Upsert(rows, view, r), view)
  {
    if rows != [] && view(rows[0]).id != view(r).id {
      UpsertIds(rows[1..], view, r);
    }
  }

  /** In a table whose keys are unique, the rows at two positions with one key are the same row. */
  lemma {:induction false} UniqueIdsAt<R>(rows: seq<R>, view: R -> Row, i: nat, j: nat)
    requires UniqueIds(rows, view) && i < j < |rows|
    ensures view(rows[i]).id != view(rows[j]).id
  {
    if i == 0 {
      IdsHas(rows[1..], view, j - 1);
    } else {
      UniqueIdsAt(rows[1..], view, i - 1, j - 1);
    }
  }

  lemma {:induction false} IdsHas<R>(rows: seq<R>, view: R -> Row, i: nat)
    requires i < |rows|
    ensures view(rows[i]).id in Ids(rows, view)
  {
    if i > 0 {
      IdsHas(rows[1..], view, i - 1);
    }
  }

  /** Deleting matching rows only ever removes rows. */
  lemma {:induction false} DropHitsMembers<R>(rows: seq<R>, view: R -> Row, c: Criterion, n: nat, x: R)
    ensures x in DropHits(rows, view, c, n) ==> x in rows
  {
    if rows != [] && n != 0 {
      if Hit(view(rows[0]), c) {
        DropHitsMembers(rows[1..], view, c, n - 1, x);
      } else {
        DropHitsMembers(rows[1..], view, c, n, x);
      }
    }
  }

  lemma {:induction false} DropHitsIds<R>(rows: seq<R>, view: R -> Row, c: Criterion, n: nat)
    ensures Ids(DropHits(rows, view, c, n), view) <= Ids(rows, view)
    ensures UniqueIds(rows, view) ==> UniqueIds(DropHits(rows, view, c, n), view)
  {
    if rows != [] && n != 0 {
      if Hit(view(rows[0]), c) {
        DropHitsIds(rows[1..], view, c, n - 1);
      } else {
        DropHitsIds(rows[1..], view, c, n);
        assert ([rows[0]] + DropHits(rows[1..], view, c, n))[1..] == DropHits(rows[1..], view, c, n);
      }
    }
  }

  /** In a table whose keys are unique, two rows with one key are the same row. */
  lemma {:induction false} UniqueIdsSame<R>(rows: seq<R>, view: R -> Row, x: R, y: R)
    requires UniqueIds(rows, view) && x in rows && y in rows && view(x).id == view(y).id
    ensures x == y
  {
    if rows[0] != x && rows[0] != y {
      UniqueIdsSame(rows[1..], view, x, y);
    } else if rows[0] == x && rows[0] != y {
      var j :| 0 <= j < |rows| && rows[j] == y;
      IdsHas(rows[1..], view, j - 1);
    } else if rows[0] != x {
      var j :| 0 <= j < |rows| && rows[j] == x;
      IdsHas(rows[1..], view, j - 1);
    }
  }

  /** Saving the same instance twice is saving it once. */
  lemma {:induction false} UpsertTwice<R>(rows: seq<R>, view: R -> Row, r: R)
    ensures Upsert(Upsert(rows, view, r), view, r) == Upsert(rows, view, r)
  {
    if rows != [] && view(rows[0]).id != view(r).id {
      UpsertTwice(rows[1..], view, r);
      assert Upsert(rows, view, r)[1..] == Upsert(rows[1..], view, r);
    }
  }

  /** Saving an instance whose key is new appends it. */
  lemma {:induction false} UpsertFresh<R>(rows: seq<R>, view: R -> Row, r: R)
    requires view(r).id !in Ids(rows, view)
    ensures Upsert(rows, view, r) == rows + [r]
  {
    if rows != [] {
      UpsertFresh(rows[1..], view, r);
      assert rows == [rows[0]] + rows[1..];
    }
  }

  /** The keys of a concatenation are the keys of both parts. */
  lemma {:induction false} IdsConcat<R>(a: seq<R>, b: seq<R>, view: R -> Row)
    ensures Ids(a + b, view) == Ids(a, view) + Ids(b, view)
  {
    if a != [] {
      IdsConcat(a[1..], b, view);
      assert (a + b)[1..] == a[1..] + b;
    } else {
      assert a + b == b;
    }
  }

  /** A key is in the table exactly when some row has it. */
  lemma {:induction false} IdsMeaning<R>(rows: seq<R>, view: R -> Row, k: string)
    ensures k in Ids(rows, view) <==> exists i :: 0 <= i < |rows| && view(rows[i]).id == k
  {
    if rows != [] {
      IdsMeaning(rows[1..], view, k);
      if k in Ids(rows[1..], view) {
        var i :| 0 <= i < |rows[1..]| && view(rows[1..][i]).id == k;
        assert view(rows[i + 1]).id == k;
      }
      if exists i :: 0 <= i < |rows| && view(rows[i]).id == k {
        var i :| 0 <= i < |rows| && view(rows[i]).id == k;
        if i > 0 {
          assert view(rows[1..][i - 1]).id == k;
        }
      }
    }
  }
}

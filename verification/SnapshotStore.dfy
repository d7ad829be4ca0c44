/** The table of stored bundles, whose timestamps are text and are compared as text. */
module SnapshotStore {
  import opened Snapshots
  import opened Text
  import opened Timestamps
  import opened Wrappers

  datatype Stored<B> = Stored(payload: B, fetchedAt: string, expiresAt: string)

  /** What `DELETE ... WHERE expires_at <= ?` leaves. */
  function PurgedByText<B>(rows: map<string, Stored<B>>, cutoff: string): map<string, Stored<B>>
  {
    map key | key in rows && !StrLe(rows[key].expiresAt, cutoff) :: rows[key]
  }

  /** The row is the snapshot, its instants printed. */
  predicate Shows<B(==)>(row: Stored<B>, snapshot: Snapshot<B>)
  {
    && Printable(snapshot.fetchedAt) && Printable(snapshot.expiresAt)
    && row == Stored(snapshot.bundle, Printed(snapshot.fetchedAt), Printed(snapshot.expiresAt))
  }

  function Showing<B(==)>(): (Stored<B>, Snapshot<B>) -> bool
  {
    (row: Stored<B>, snapshot: Snapshot<B>) => Shows(row, snapshot)
  }

  predicate Related<B>(rows: map<string, Stored<B>>, table: map<string, Snapshot<B>>,
                       r: (Stored<B>, Snapshot<B>) -> bool)
  {
    rows.Keys == table.Keys && forall key :: key in rows ==> r(rows[key], table[key])
  }

  /** The rows are the snapshots of a table with instants. */
  predicate Mirrors<B(==)>(rows: map<string, Stored<B>>, table: map<string, Snapshot<B>>)
  {
    Related(rows, table, Showing())
  }

  /** The stored rows. Each method is told, for its contract alone, which table of snapshots
      the rows stand for. */
  class Table<B(==)> {
    var rows: map<string, Stored<B>>

    constructor ()
      ensures Mirrors(rows, map[])
    {
      rows := map[];
    }

    /** After storing, the rows stand for the table with the snapshot taken under its key. */
    method Upsert(key: string, payload: B, fetchedAt: string, expiresAt: string,
                  ghost table: map<string, Snapshot<B>>, ghost taken: Snapshot<B>)
      requires Mirrors(rows, table) && Shows(Stored(payload, fetchedAt, expiresAt), taken)
      modifies this
      ensures Mirrors(rows, table[key := taken])
    {
      StoredAlike(rows, table, key, Stored(payload, fetchedAt, expiresAt), taken, Showing());
      rows := rows[key := Stored(payload, fetchedAt, expiresAt)];
    }

    /** The row of a key, if there is one. */
    method Get(key: string, ghost table: map<string, Snapshot<B>>) returns (row: Option<Stored<B>>)
      requires Mirrors(rows, table)
      ensures row.Some? <==> key in table
      ensures row.Some? ==> Shows(row.value, table[key])
    {
      if key in rows {
        assert Showing<B>()(rows[key], table[key]);
        return Some(rows[key]);
      }
      row := None;
    }

    /** Comparing texts deletes exactly the snapshots that have expired at the instant. */
    method Purge(cutoff: string, ghost table: map<string, Snapshot<B>>, ghost instant: int) returns (count: int)
      requires Mirrors(rows, table) && Printable(instant) && cutoff == Printed(instant)
      modifies this
      ensures Mirrors(rows, Purged(table, instant))
      ensures count == |table| - |Purged(table, instant)|
    {
      PurgeByTextIsPurge(rows, table, instant);
      SameSize(rows, table);
      var before := |rows|;
      rows := PurgedByText(rows, cutoff);
      SameSize(rows, Purged(table, instant));
      count := before - |rows|;
    }
  }

  lemma SameSize<B>(rows: map<string, Stored<B>>, table: map<string, Snapshot<B>>)
    requires Mirrors(rows, table)
    ensures |rows| == |table|
  {
    assert |rows| == |rows.Keys| == |table.Keys| == |table|;
  }

  lemma ExpiryByText<B>(row: Stored<B>, snapshot: Snapshot<B>, cutoff: int)
    requires Shows(row, snapshot) && Printable(cutoff)
    ensures StrLe(row.expiresAt, Printed(cutoff)) <==> snapshot.expiresAt <= cutoff
  {
    PrintedOrder(snapshot.expiresAt, cutoff);
  }

  lemma PurgedAlike<B>(rows: map<string, Stored<B>>, table: map<string, Snapshot<B>>, text: string, cutoff: int,
                       r: (Stored<B>, Snapshot<B>) -> bool)
    requires Related(rows, table, r)
    requires forall key :: key in rows ==> (StrLe(rows[key].expiresAt, text) <==> table[key].expiresAt <= cutoff)
    ensures Related(PurgedByText(rows, text), Purged(table, cutoff), r)
    ensures forall key :: key in rows ==> (key in PurgedByText(rows, text) <==> table[key].expiresAt > cutoff)
  {
  }

  /** Purging by text removes exactly the snapshots whose instant has passed. */
  lemma PurgeByTextIsPurge<B>(rows: map<string, Stored<B>>, table: map<string, Snapshot<B>>, cutoff: int)
    requires Mirrors(rows, table) && Printable(cutoff)
    ensures Mirrors(PurgedByText(rows, Printed(cutoff)), Purged(table, cutoff))
    ensures forall key :: key in rows ==>
              (key in PurgedByText(rows, Printed(cutoff)) <==> table[key].expiresAt > cutoff)
  {
    forall key | key in rows ensures StrLe(rows[key].expiresAt, Printed(cutoff)) <==> table[key].expiresAt <= cutoff {
      assert Showing<B>()(rows[key], table[key]);
      ExpiryByText(rows[key], table[key], cutoff);
    }
    PurgedAlike(rows, table, Printed(cutoff), cutoff, Showing());
  }

  lemma StoredAlike<B>(rows: map<string, Stored<B>>, table: map<string, Snapshot<B>>, key: string, row: Stored<B>,
                       taken: Snapshot<B>, r: (Stored<B>, Snapshot<B>) -> bool)
    requires Related(rows, table, r) && r(row, taken)
    ensures Related(rows[key := row], table[key := taken], r)
  {
  }
}

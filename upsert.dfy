/** `INSERT … ON CONFLICT (provider_id) DO UPDATE` on a table whose primary
    key is an identity column and whose provider id is unique. Rows are kept
    by provider id; each row carries the surrogate id it was given. */
module Upsert {
  import opened Wrappers

  datatype Keyed<R> = Keyed(id: nat, row: R)

  /** `next` is the identity sequence's next value. */
  datatype Table<R> = Table(rows: map<string, Keyed<R>>, next: nat)

  /** The query builder refuses an insert without rows. */
  const EmptyValues := "values() must be called with at least one value"
  /** Postgres refuses an upsert whose batch proposes one key twice. */
  const AffectsRowTwice := "ON CONFLICT DO UPDATE command cannot affect row a second time"

  function EmptyTable<R>(): Table<R>
  {
    Table(map[], 1)
  }

  /** Surrogate ids are positive, below the sequence and distinct. */
  predicate WellFormed<R>(t: Table<R>)
  {
    && 1 <= t.next
    && (forall k :: k in t.rows ==> 1 <= t.rows[k].id < t.next)
    && (forall k1, k2 :: k1 in t.rows && k2 in t.rows && t.rows[k1].id == t.rows[k2].id ==> k1 == k2)
  }

  predicate DistinctKeys<V>(batch: seq<V>, key: V -> string)
  {
    forall i, j :: 0 <= i < j < |batch| ==> key(batch[i]) != key(batch[j])
  }

  function BatchKeys<V>(batch: seq<V>, key: V -> string): set<string>
  {
    set i | 0 <= i < |batch| :: key(batch[i])
  }

  /** One proposed row: it updates the row with its key, or is inserted
      with the next surrogate id. The sequence advances either way, as a
      Postgres identity column does when an insert turns into an update. */
  function UpsertRow<R, V>(t: Table<R>, v: V, key: V -> string, insert: V -> R, update: (R, V) -> R): Table<R>
  {
    var k := key(v);
    if k in t.rows then Table(t.rows[k := Keyed(t.rows[k].id, update(t.rows[k].row, v))], t.next + 1)
    else Table(t.rows[k := Keyed(t.next, insert(v))], t.next + 1)
  }

  function UpsertAll<R, V>(t: Table<R>, batch: seq<V>, key: V -> string, insert: V -> R, update: (R, V) -> R): Table<R>
    decreases |batch|
  {
    if batch == [] then t
    else UpsertRow(UpsertAll(t, batch[..|batch| - 1], key, insert, update), batch[|batch| - 1], key, insert, update)
  }

  /** The statement: refused without rows or with a repeated key. */
  function UpsertRows<R, V>(t: Table<R>, batch: seq<V>, key: V -> string, insert: V -> R, update: (R, V) -> R): (r: Result<Table<R>>)
    ensures r.Ok? <==> batch != [] && DistinctKeys(batch, key)
    ensures r.Err? ==> r.error == (if batch == [] then EmptyValues else AffectsRowTwice)
  {
    if batch == [] then Err(EmptyValues)
    else if !DistinctKeys(batch, key) then Err(AffectsRowTwice)
    else Ok(UpsertAll(t, batch, key, insert, update))
  }

  // ---------------------------------------------------------------------
  // Properties

  /** The keys after an upsert are the old ones plus the batch's, rows
      outside the batch are untouched, and the sequence has advanced once
      per proposed row. */
  lemma {:induction false} UpsertAllFrame<R, V>(t: Table<R>, batch: seq<V>, key: V -> string, insert: V -> R, update: (R, V) -> R)
    ensures var r := UpsertAll(t, batch, key, insert, update);
      && r.next == t.next + |batch|
      && r.rows.Keys == t.rows.Keys + BatchKeys(batch, key)
      && (forall k :: k in t.rows && k !in BatchKeys(batch, key) ==> r.rows[k] == t.rows[k])
    decreases |batch|
  {
    if batch != [] {
      var p := batch[..|batch| - 1];
      UpsertAllFrame(t, p, key, insert, update);
      assert BatchKeys(batch, key) == BatchKeys(p, key) + {key(batch[|batch| - 1])};
    }
  }

  /** After an upsert of distinct keys, an existing row keeps its surrogate
      id and is updated from its proposed row, and a new row is inserted
      with the sequence value of its position in the batch. */
  lemma {:induction false} UpsertAllRows<R, V>(t: Table<R>, batch: seq<V>, key: V -> string, insert: V -> R, update: (R, V) -> R)
    requires DistinctKeys(batch, key)
    ensures var r := UpsertAll(t, batch, key, insert, update);
      && (forall i :: 0 <= i < |batch| && key(batch[i]) in t.rows ==>
            key(batch[i]) in r.rows && r.rows[key(batch[i])] == Keyed(t.rows[key(batch[i])].id, update(t.rows[key(batch[i])].row, batch[i])))
      && (forall i :: 0 <= i < |batch| && key(batch[i]) !in t.rows ==>
            key(batch[i]) in r.rows && r.rows[key(batch[i])] == Keyed(t.next + i, insert(batch[i])))
    decreases |batch|
  {
    if batch != [] {
      var n := |batch| - 1;
      var p := batch[..n];
      var last := batch[n];
      assert forall i :: 0 <= i < |p| ==> p[i] == batch[i];
      assert DistinctKeys(p, key);
      UpsertAllRows(t, p, key, insert, update);
      UpsertAllFrame(t, p, key, insert, update);
      var rp := UpsertAll(t, p, key, insert, update);
      assert key(last) !in BatchKeys(p, key);
      forall i | 0 <= i < n ensures key(batch[i]) != key(last) && key(batch[i]) in rp.rows {
      }
    }
  }

  /** `UpsertAllRows` for one row of the batch. */
  lemma UpsertAllAt<R, V>(t: Table<R>, batch: seq<V>, key: V -> string, insert: V -> R, update: (R, V) -> R, j: nat)
    requires DistinctKeys(batch, key) && j < |batch|
    ensures key(batch[j]) in UpsertAll(t, batch, key, insert, update).rows
    ensures UpsertAll(t, batch, key, insert, update).rows[key(batch[j])] ==
      if key(batch[j]) in t.rows then Keyed(t.rows[key(batch[j])].id, update(t.rows[key(batch[j])].row, batch[j]))
      else Keyed(t.next + j, insert(batch[j]))
  {
    UpsertAllRows(t, batch, key, insert, update);
  }

  /** No upsert removes a row or changes the surrogate id it had. */
  lemma UpsertAllKeepsIds<R, V>(t: Table<R>, batch: seq<V>, key: V -> string, insert: V -> R, update: (R, V) -> R)
    requires DistinctKeys(batch, key)
    ensures var r := UpsertAll(t, batch, key, insert, update);
      forall k :: k in t.rows ==> k in r.rows && r.rows[k].id == t.rows[k].id
  {
    UpsertAllFrame(t, batch, key, insert, update);
    UpsertAllRows(t, batch, key, insert, update);
  }

  lemma UpsertRowWellFormed<R, V>(t: Table<R>, v: V, key: V -> string, insert: V -> R, update: (R, V) -> R)
    requires WellFormed(t)
    ensures WellFormed(UpsertRow(t, v, key, insert, update))
  {
  }

  /** Upserts keep surrogate ids positive, below the sequence and distinct. */
  lemma {:induction false} UpsertAllWellFormed<R, V>(t: Table<R>, batch: seq<V>, key: V -> string, insert: V -> R, update: (R, V) -> R)
    requires WellFormed(t)
    ensures WellFormed(UpsertAll(t, batch, key, insert, update))
    decreases |batch|
  {
    if batch != [] {
      UpsertAllWellFormed(t, batch[..|batch| - 1], key, insert, update);
      UpsertRowWellFormed(UpsertAll(t, batch[..|batch| - 1], key, insert, update), batch[|batch| - 1], key, insert, update);
    }
  }

  /** Replaying a batch with the same keys: when the second batch's update
      overrides whatever the first batch's update or insert left, the
      rows after both equal the rows after the second alone (only the
      sequence moves on further). */
  lemma UpsertAllReplay<R, V>(t: Table<R>, key: V -> string,
                              b1: seq<V>, insert1: V -> R, update1: (R, V) -> R,
                              b2: seq<V>, insert2: V -> R, update2: (R, V) -> R)
    requires DistinctKeys(b1, key) && |b2| == |b1|
    requires forall i :: 0 <= i < |b1| ==> key(b2[i]) == key(b1[i])
    requires forall i, row :: 0 <= i < |b1| ==> update2(update1(row, b1[i]), b2[i]) == update2(row, b2[i])
    requires forall i :: 0 <= i < |b1| ==> update2(insert1(b1[i]), b2[i]) == insert2(b2[i])
    ensures UpsertAll(UpsertAll(t, b1, key, insert1, update1), b2, key, insert2, update2).rows ==
            UpsertAll(t, b2, key, insert2, update2).rows
  {
    var once := UpsertAll(t, b1, key, insert1, update1);
    var twice := UpsertAll(once, b2, key, insert2, update2);
    var single := UpsertAll(t, b2, key, insert2, update2);
    UpsertAllReplayKeys(t, key, b1, insert1, update1, b2, insert2, update2);
    forall k | k in single.rows ensures twice.rows[k] == single.rows[k] {
      UpsertAllReplayKey(t, key, b1, insert1, update1, b2, insert2, update2, k);
    }
  }

  /** Both runs of `UpsertAllReplay` end with the same keys. */
  lemma UpsertAllReplayKeys<R, V>(t: Table<R>, key: V -> string,
                                  b1: seq<V>, insert1: V -> R, update1: (R, V) -> R,
                                  b2: seq<V>, insert2: V -> R, update2: (R, V) -> R)
    requires DistinctKeys(b1, key) && |b2| == |b1|
    requires forall i :: 0 <= i < |b1| ==> key(b2[i]) == key(b1[i])
    ensures UpsertAll(UpsertAll(t, b1, key, insert1, update1), b2, key, insert2, update2).rows.Keys ==
            UpsertAll(t, b2, key, insert2, update2).rows.Keys
  {
    var once := UpsertAll(t, b1, key, insert1, update1);
    SameKeys(b1, b2, key);
    UpsertAllFrame(t, b1, key, insert1, update1);
    UpsertAllFrame(once, b2, key, insert2, update2);
    UpsertAllFrame(t, b2, key, insert2, update2);
  }

  /** `UpsertAllReplay` at one key of the table. */
  lemma UpsertAllReplayKey<R, V>(t: Table<R>, key: V -> string,
                                 b1: seq<V>, insert1: V -> R, update1: (R, V) -> R,
                                 b2: seq<V>, insert2: V -> R, update2: (R, V) -> R, k: string)
    requires DistinctKeys(b1, key) && |b2| == |b1|
    requires forall i :: 0 <= i < |b1| ==> key(b2[i]) == key(b1[i])
    requires forall i, row :: 0 <= i < |b1| ==> update2(update1(row, b1[i]), b2[i]) == update2(row, b2[i])
    requires forall i :: 0 <= i < |b1| ==> update2(insert1(b1[i]), b2[i]) == insert2(b2[i])
    requires k in UpsertAll(t, b2, key, insert2, update2).rows
    ensures k in UpsertAll(UpsertAll(t, b1, key, insert1, update1), b2, key, insert2, update2).rows
    ensures UpsertAll(UpsertAll(t, b1, key, insert1, update1), b2, key, insert2, update2).rows[k] ==
            UpsertAll(t, b2, key, insert2, update2).rows[k]
  {
    var once := UpsertAll(t, b1, key, insert1, update1);
    SameKeys(b1, b2, key);
    UpsertAllFrame(t, b1, key, insert1, update1);
    UpsertAllFrame(once, b2, key, insert2, update2);
    UpsertAllFrame(t, b2, key, insert2, update2);
    if k in BatchKeys(b2, key) {
      var i :| 0 <= i < |b2| && key(b2[i]) == k;
      UpsertAllReplayAt(t, key, b1, insert1, update1, b2, insert2, update2, i);
    }
  }

  /** Two batches with the same keys, position by position, have the same
      key set, and one has distinct keys when the other does. */
  lemma SameKeys<V>(b1: seq<V>, b2: seq<V>, key: V -> string)
    requires DistinctKeys(b1, key) && |b2| == |b1|
    requires forall i :: 0 <= i < |b1| ==> key(b2[i]) == key(b1[i])
    ensures DistinctKeys(b2, key) && BatchKeys(b2, key) == BatchKeys(b1, key)
  {
    forall i, j | 0 <= i < j < |b2| ensures key(b2[i]) != key(b2[j]) {
      assert key(b1[i]) != key(b1[j]);
    }
    forall k ensures k in BatchKeys(b2, key) <==> k in BatchKeys(b1, key) {
      if k in BatchKeys(b2, key) {
        var i :| 0 <= i < |b2| && key(b2[i]) == k;
        assert key(b1[i]) == k;
      }
      if k in BatchKeys(b1, key) {
        var i :| 0 <= i < |b1| && key(b1[i]) == k;
        assert key(b2[i]) == k;
      }
    }
  }

  /** `UpsertAllReplay` at one row of the batch. */
  lemma UpsertAllReplayAt<R, V>(t: Table<R>, key: V -> string,
                                b1: seq<V>, insert1: V -> R, update1: (R, V) -> R,
                                b2: seq<V>, insert2: V -> R, update2: (R, V) -> R, i: nat)
    requires DistinctKeys(b1, key) && DistinctKeys(b2, key) && i < |b1| == |b2|
    requires key(b2[i]) == key(b1[i])
    requires forall row :: update2(update1(row, b1[i]), b2[i]) == update2(row, b2[i])
    requires update2(insert1(b1[i]), b2[i]) == insert2(b2[i])
    ensures key(b2[i]) in UpsertAll(t, b2, key, insert2, update2).rows
    ensures key(b2[i]) in UpsertAll(UpsertAll(t, b1, key, insert1, update1), b2, key, insert2, update2).rows
    ensures UpsertAll(UpsertAll(t, b1, key, insert1, update1), b2, key, insert2, update2).rows[key(b2[i])] ==
            UpsertAll(t, b2, key, insert2, update2).rows[key(b2[i])]
  {
    var once := UpsertAll(t, b1, key, insert1, update1);
    UpsertAllFrame(t, b1, key, insert1, update1);
    UpsertAllAt(t, b1, key, insert1, update1, i);
    UpsertAllAt(once, b2, key, insert2, update2, i);
    UpsertAllAt(t, b2, key, insert2, update2, i);
  }
}

/** What a page of `upsertTransactions` does to a valid store. */
module TransactionFacts {
  import opened Wrappers
  import opened Upsert
  import opened Schema
  import opened Fetch
  import opened Transactions

  /** No id appears twice on the page, as in any listing from the API. */
  predicate DistinctIds(txs: seq<TransactionResource>)
  {
    forall i, j :: 0 <= i < j < |txs| ==> txs[i].id != txs[j].id
  }

  /** The provider ids of the transactions `remap` keeps. */
  function KeptIds(snap: Snapshot, txs: seq<TransactionResource>, now: Time, processName: string): set<string>
  {
    set i | 0 <= i < |txs| && Remap(snap, txs[i], now, processName).Kept? :: txs[i].id
  }

  /** No provider id is kept twice. */
  lemma {:induction false} KeptDistinct(snap: Snapshot, txs: seq<TransactionResource>, now: Time, processName: string)
    requires DistinctIds(txs)
    ensures DistinctKeys(KeptOf(snap, txs, now, processName), ProposedKey)
    decreases |txs|
  {
    if txs != [] {
      var n := |txs| - 1;
      var p := txs[..n];
      var last := txs[n];
      assert forall i :: 0 <= i < |p| ==> p[i] == txs[i];
      KeptDistinct(snap, p, now, processName);
      var kp := KeptOf(snap, p, now, processName);
      var kept := KeptOf(snap, txs, now, processName);
      assert last.id !in TxIdsOf(p);
      var rm := Remap(snap, last, now, processName);
      if rm.Kept? {
        assert kept == kp + [rm.proposed];
        forall i, j | 0 <= i < j < |kept| ensures ProposedKey(kept[i]) != ProposedKey(kept[j]) {
          if j == |kp| {
            assert kept[i] == kp[i];
            assert kp[i].providerId in TxIdsOf(p);
          } else {
            assert kept[i] == kp[i] && kept[j] == kp[j];
          }
        }
      } else {
        assert kept == kp;
      }
    }
  }

  /** The keys of the filtered rows are the ids of the kept transactions. */
  lemma {:induction false} KeptKeys(snap: Snapshot, txs: seq<TransactionResource>, now: Time, processName: string)
    ensures BatchKeys(KeptOf(snap, txs, now, processName), ProposedKey) == KeptIds(snap, txs, now, processName)
    decreases |txs|
  {
    if txs != [] {
      var n := |txs| - 1;
      var p := txs[..n];
      var last := txs[n];
      assert forall i :: 0 <= i < |p| ==> p[i] == txs[i];
      KeptKeys(snap, p, now, processName);
      var kp := KeptOf(snap, p, now, processName);
      var kept := KeptOf(snap, txs, now, processName);
      var rm := Remap(snap, last, now, processName);
      if rm.Kept? {
        assert kept == kp + [rm.proposed];
        assert forall j :: 0 <= j < |kp| ==> kept[j] == kp[j];
        assert ProposedKey(kept[|kp|]) == last.id;
        assert BatchKeys(kept, ProposedKey) == BatchKeys(kp, ProposedKey) + {last.id};
        assert KeptIds(snap, txs, now, processName) == KeptIds(snap, p, now, processName) + {last.id};
      } else {
        assert kept == kp;
        assert KeptIds(snap, txs, now, processName) == KeptIds(snap, p, now, processName);
      }
    }
  }

  /** `q` is what `remap` made of the page's transaction with its id. */
  predicate FromPage(snap: Snapshot, txs: seq<TransactionResource>, q: Proposed, now: Time, processName: string)
  {
    && q.providerId in TxMap(txs)
    && Remap(snap, TxMap(txs)[q.providerId], now, processName).Kept?
    && Remap(snap, TxMap(txs)[q.providerId], now, processName).proposed == q
  }

  /** Each filtered row is what `remap` made of the page's transaction
      with its id. */
  lemma {:induction false} KeptFromPage(snap: Snapshot, txs: seq<TransactionResource>, now: Time, processName: string)
    requires DistinctIds(txs)
    ensures forall j :: 0 <= j < |KeptOf(snap, txs, now, processName)| ==> FromPage(snap, txs, KeptOf(snap, txs, now, processName)[j], now, processName)
    decreases |txs|
  {
    if txs != [] {
      var n := |txs| - 1;
      var p := txs[..n];
      var last := txs[n];
      assert forall i :: 0 <= i < |p| ==> p[i] == txs[i];
      KeptFromPage(snap, p, now, processName);
      var kp := KeptOf(snap, p, now, processName);
      var kept := KeptOf(snap, txs, now, processName);
      assert last.id !in TxIdsOf(p);
      var rm := Remap(snap, last, now, processName);
      var tm := TxMap(txs);
      assert tm == TxMap(p)[last.id := last];
      assert kept == kp + (if rm.Kept? then [rm.proposed] else []);
      forall j | 0 <= j < |kept| ensures FromPage(snap, txs, kept[j], now, processName) {
        if j < |kp| {
          assert kept[j] == kp[j];
          assert FromPage(snap, p, kp[j], now, processName);
          assert kp[j].providerId in TxIdsOf(p);
          assert tm[kp[j].providerId] == TxMap(p)[kp[j].providerId];
        } else {
          assert kept[j] == rm.proposed && rm.proposed.providerId == last.id;
        }
      }
    }
  }

  /** The filtered rows are the kept transactions' rows, each once. */
  lemma KeptOfShape(snap: Snapshot, txs: seq<TransactionResource>, now: Time, processName: string)
    requires DistinctIds(txs)
    ensures var kept := KeptOf(snap, txs, now, processName);
      && DistinctKeys(kept, ProposedKey)
      && BatchKeys(kept, ProposedKey) == KeptIds(snap, txs, now, processName)
      && (forall j :: 0 <= j < |kept| ==>
            && kept[j].providerId in TxMap(txs)
            && Remap(snap, TxMap(txs)[kept[j].providerId], now, processName).Kept?
            && Remap(snap, TxMap(txs)[kept[j].providerId], now, processName).proposed == kept[j])
  {
    KeptDistinct(snap, txs, now, processName);
    KeptKeys(snap, txs, now, processName);
    KeptFromPage(snap, txs, now, processName);
  }

  /** A row `remap` builds from a snapshot of a valid store satisfies the
      foreign keys of `transaction`. */
  predicate RowKeysHold(s: Store, row: TransactionRow)
  {
    && row.accountId in AccountIds(s)
    && (row.transferAccountId.Some? ==> row.transferAccountId.value in AccountIds(s))
    && (row.categoryId.Some? ==> row.categoryId.value in s.categories)
  }

  lemma SnapshotRowsHold(s: Store, t: TransactionResource, now: Time, processName: string)
    requires Valid(s)
    ensures Remap(SnapshotOf(s), t, now, processName).Kept? ==> RowKeysHold(s, Remap(SnapshotOf(s), t, now, processName).proposed.row)
  {
    var snap := SnapshotOf(s);
    if Remap(snap, t, now, processName).Kept? {
      assert s.accounts.rows[t.accountId].id in AccountIds(s);
      if Truthy(t.transferAccountId) {
        assert s.accounts.rows[t.transferAccountId.value].id in AccountIds(s);
      }
    }
  }

  lemma {:induction false} KeptRowsHold(s: Store, snap: Snapshot, txs: seq<TransactionResource>, now: Time, processName: string)
    requires Valid(s) && snap == SnapshotOf(s)
    ensures var kept := KeptOf(snap, txs, now, processName);
      forall j :: 0 <= j < |kept| ==> RowKeysHold(s, kept[j].row)
    decreases |txs|
  {
    if txs != [] {
      var p := txs[..|txs| - 1];
      KeptRowsHold(s, snap, p, now, processName);
      assert forall j :: 0 <= j < |KeptOf(snap, p, now, processName)| ==> RowKeysHold(s, KeptOf(snap, p, now, processName)[j].row);
      SnapshotRowsHold(s, txs[|txs| - 1], now, processName);
      var kp := KeptOf(snap, p, now, processName);
      var kept := KeptOf(snap, txs, now, processName);
      var rm := Remap(snap, txs[|txs| - 1], now, processName);
      assert kept == kp + (if rm.Kept? then [rm.proposed] else []);
      forall j | 0 <= j < |kept| ensures RowKeysHold(s, kept[j].row) {
        if j < |kp| {
          assert kept[j] == kp[j];
        } else {
          assert kept[j] == rm.proposed;
        }
      }
    }
  }

  /** Rows that keep the foreign keys leave `transaction` satisfying them. */
  lemma UpsertKeepsTransactionKeys(s: Store, kept: seq<Proposed>)
    requires Valid(s) && DistinctKeys(kept, ProposedKey)
    requires forall j :: 0 <= j < |kept| ==> RowKeysHold(s, kept[j].row)
    ensures TransactionKeys(s.(transactions := UpsertAll(s.transactions, kept, ProposedKey, ProposedRow, RefreshedRow)))
  {
    var t := UpsertAll(s.transactions, kept, ProposedKey, ProposedRow, RefreshedRow);
    var r := s.(transactions := t);
    UpsertAllFrame(s.transactions, kept, ProposedKey, ProposedRow, RefreshedRow);
    UpsertAllRows(s.transactions, kept, ProposedKey, ProposedRow, RefreshedRow);
    assert AccountIds(r) == AccountIds(s);
    forall k | k in t.rows ensures RowKeysHold(s, t.rows[k].row) {
      if k in BatchKeys(kept, ProposedKey) {
        var j :| 0 <= j < |kept| && ProposedKey(kept[j]) == k;
        if k in s.transactions.rows {
          assert RowKeysHold(s, s.transactions.rows[k].row);
        }
      }
    }
  }

  /** On a valid store a page with distinct ids is never refused: its
      rows always satisfy the foreign keys, so `upsertTransactions` only
      ever throws on a page that repeats an id. Every transaction on the
      page is counted, as processed or as skipped. */
  lemma PageCommits(st: Ingest, txs: seq<TransactionResource>, now: Time, processName: string)
    requires Valid(st.store) && DistinctIds(txs)
    ensures var r := UpsertTransactionsPage(st, txs, now, processName);
      var kept := KeptOf(SnapshotOf(st.store), txs, now, processName);
      && r.Done?
      && r.state.metrics.pagesProcessed == st.metrics.pagesProcessed + 1
      && r.state.metrics.total == st.metrics.total + |txs|
      && r.state.metrics.processed == st.metrics.processed + |kept|
      && r.state.metrics.skipped == st.metrics.skipped + (|txs| - |kept|)
      && |kept| == |KeptIds(SnapshotOf(st.store), txs, now, processName)|
  {
    var snap := SnapshotOf(st.store);
    var kept := KeptOf(snap, txs, now, processName);
    KeptOfShape(snap, txs, now, processName);
    KeptRowsHold(st.store, snap, txs, now, processName);
    if kept != [] {
      UpsertKeepsTransactionKeys(st.store, kept);
    }
    KeyCount(kept, ProposedKey);
  }

  lemma {:induction false} KeyCount<V>(batch: seq<V>, key: V -> string)
    requires DistinctKeys(batch, key)
    ensures |BatchKeys(batch, key)| == |batch|
    decreases |batch|
  {
    if batch != [] {
      var p := batch[..|batch| - 1];
      assert forall i :: 0 <= i < |p| ==> p[i] == batch[i];
      KeyCount(p, key);
      assert BatchKeys(batch, key) == BatchKeys(p, key) + {key(batch[|batch| - 1])};
      assert key(batch[|batch| - 1]) !in BatchKeys(p, key);
    }
  }

  /** The category `remap` leaves on a kept row. */
  function ResolvedCategory(snap: Snapshot, t: TransactionResource): Option<CategoryId>
  {
    if Truthy(t.categoryId) && t.categoryId.value in snap.categories then t.categoryId else None
  }

  /** The page's effect on `transaction` is the upsert of the kept rows. */
  lemma PageTransactions(st: Ingest, txs: seq<TransactionResource>, now: Time, processName: string)
    requires Valid(st.store) && DistinctIds(txs)
    ensures UpsertTransactionsPage(st, txs, now, processName).state.store.transactions ==
      UpsertAll(st.store.transactions, KeptOf(SnapshotOf(st.store), txs, now, processName), ProposedKey, ProposedRow, RefreshedRow)
  {
    PageCommits(st, txs, now, processName);
  }

  /** The keys of `transaction` after a page are the stored ones and the
      kept ones, and a row whose transaction was not kept is left as it
      was. */
  lemma PageRowsFrame(st: Ingest, txs: seq<TransactionResource>, now: Time, processName: string)
    requires Valid(st.store) && DistinctIds(txs)
    ensures var s := st.store;
      var snap := SnapshotOf(s);
      var r := UpsertTransactionsPage(st, txs, now, processName).state.store;
      && r.transactions.rows.Keys == s.transactions.rows.Keys + KeptIds(snap, txs, now, processName)
      && (forall k :: k in s.transactions.rows && k !in KeptIds(snap, txs, now, processName) ==>
            r.transactions.rows[k] == s.transactions.rows[k])
  {
    var s := st.store;
    var snap := SnapshotOf(s);
    var kept := KeptOf(snap, txs, now, processName);
    PageTransactions(st, txs, now, processName);
    KeptOfShape(snap, txs, now, processName);
    UpsertAllFrame(s.transactions, kept, ProposedKey, ProposedRow, RefreshedRow);
  }

  /** A skipped transaction is not among the kept ones, so its row (if it
      had one) is left as it was. */
  lemma SkippedNotKept(snap: Snapshot, txs: seq<TransactionResource>, now: Time, processName: string, i: nat)
    requires DistinctIds(txs) && i < |txs| && Remap(snap, txs[i], now, processName).Skipped?
    ensures txs[i].id !in KeptIds(snap, txs, now, processName)
  {
    forall i2 | 0 <= i2 < |txs| && Remap(snap, txs[i2], now, processName).Kept? ensures txs[i2].id != txs[i].id {
      assert i2 != i;
    }
  }

  /** The row of a kept transaction after a page: the remapped details and
      category and this process's stamp; one that was stored keeps its id,
      accounts, creation time and soft-deletion; a new one takes its
      accounts and creation time from the resource. */
  lemma PageRowKept(st: Ingest, txs: seq<TransactionResource>, now: Time, processName: string, i: nat)
    requires Valid(st.store) && DistinctIds(txs) && i < |txs|
    requires Remap(SnapshotOf(st.store), txs[i], now, processName).Kept?
    ensures var s := st.store;
      var r := UpsertTransactionsPage(st, txs, now, processName).state.store;
      var t := txs[i];
      && t.id in r.transactions.rows
      && var row := r.transactions.rows[t.id].row;
      && row.details == Transactions.Details(t)
      && row.categoryId == ResolvedCategory(SnapshotOf(s), t)
      && row.updatedAt == Some(now) && row.updatedBy == Some(processName)
      && (t.id in s.transactions.rows ==>
            var before := s.transactions.rows[t.id];
            && r.transactions.rows[t.id].id == before.id
            && row.accountId == before.row.accountId
            && row.transferAccountId == before.row.transferAccountId
            && row.createdAt == before.row.createdAt
            && row.deletedAt == before.row.deletedAt)
      && (t.id !in s.transactions.rows ==>
            && row.accountId == s.accounts.rows[t.accountId].id
            && row.transferAccountId == (if Truthy(t.transferAccountId) then Some(s.accounts.rows[t.transferAccountId.value].id) else None)
            && row.createdAt == t.attributes.createdAt
            && row.deletedAt.None?)
  {
    var s := st.store;
    var q := Remap(SnapshotOf(s), txs[i], now, processName).proposed;
    PageRowIs(st, txs, now, processName, i);
    assert q.providerId == txs[i].id;
  }

  /** The stored entry of a kept transaction after a page: its proposed
      row, refreshed onto the stored one when there was one. */
  lemma PageRowIs(st: Ingest, txs: seq<TransactionResource>, now: Time, processName: string, i: nat)
    requires Valid(st.store) && DistinctIds(txs) && i < |txs|
    requires Remap(SnapshotOf(st.store), txs[i], now, processName).Kept?
    ensures var s := st.store;
      var r := UpsertTransactionsPage(st, txs, now, processName).state.store;
      var q := Remap(SnapshotOf(s), txs[i], now, processName).proposed;
      && txs[i].id in r.transactions.rows
      && (txs[i].id in s.transactions.rows ==>
            r.transactions.rows[txs[i].id] == Keyed(s.transactions.rows[txs[i].id].id, RefreshedRow(s.transactions.rows[txs[i].id].row, q)))
      && (txs[i].id !in s.transactions.rows ==> r.transactions.rows[txs[i].id].row == q.row)
  {
    var s := st.store;
    var snap := SnapshotOf(s);
    var kept := KeptOf(snap, txs, now, processName);
    var t := txs[i];
    PageTransactions(st, txs, now, processName);
    KeptDistinct(snap, txs, now, processName);
    KeptKeys(snap, txs, now, processName);
    KeptFromPage(snap, txs, now, processName);
    assert t.id in KeptIds(snap, txs, now, processName);
    assert t.id in BatchKeys(kept, ProposedKey);
    var j :| 0 <= j < |kept| && ProposedKey(kept[j]) == t.id;
    TxMapAt(txs, i);
    assert FromPage(snap, txs, kept[j], now, processName);
    assert kept[j] == Remap(snap, t, now, processName).proposed;
    UpsertAllAt(s.transactions, kept, ProposedKey, ProposedRow, RefreshedRow, j);
  }

  /** With distinct ids, the map of the page finds each resource. */
  lemma {:induction false} TxMapAt(txs: seq<TransactionResource>, i: nat)
    requires DistinctIds(txs) && i < |txs|
    ensures txs[i].id in TxMap(txs) && TxMap(txs)[txs[i].id] == txs[i]
    decreases |txs|
  {
    var p := txs[..|txs| - 1];
    if i < |txs| - 1 {
      assert forall a :: 0 <= a < |p| ==> p[a] == txs[a];
      TxMapAt(p, i);
    }
  }
}

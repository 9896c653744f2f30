/** What a page's follow-up statements (tag links and the detail tables)
    do, and that a page keeps the store valid. */
module PageFacts {
  import opened Wrappers
  import opened Upsert
  import opened Schema
  import opened Transactions
  import opened TransactionFacts

  /** The entry of a detail table at a surrogate id. */
  function At<V>(m: map<nat, V>, id: nat): (r: Option<V>)
    ensures r.Some? <==> id in m
    ensures r.Some? ==> r.value == m[id]
  {
    if id in m then Some(m[id]) else None
  }

  /** Distinct keys carry distinct surrogate ids. */
  predicate Injective(rows: map<string, Keyed<TransactionRow>>)
  {
    forall k1, k2 :: k1 in rows && k2 in rows && rows[k1].id == rows[k2].id ==> k1 == k2
  }

  /** The surrogate ids of the returned rows. */
  function ReturnedIds(rows: map<string, Keyed<TransactionRow>>, kept: seq<Proposed>, tmap: map<string, TransactionResource>): set<nat>
    requires Returned(rows, kept, tmap)
  {
    set j | 0 <= j < |kept| :: rows[kept[j].providerId].id
  }

  /** Every collected row belongs to a returned row, and every link names
      a tag of the snapshot. */
  lemma {:induction false} SubRowsBounds(rows: map<string, Keyed<TransactionRow>>, kept: seq<Proposed>,
                                         tmap: map<string, TransactionResource>, tags: set<TagId>)
    requires Returned(rows, kept, tmap)
    ensures var sub := SubRowsOf(rows, kept, tmap, tags);
      var ids := ReturnedIds(rows, kept, tmap);
      && (forall link :: link in sub.links ==> link.0 in ids && link.1 in tags)
      && sub.holdInfo.Keys <= ids && sub.roundUps.Keys <= ids && sub.cashbacks.Keys <= ids
    decreases |kept|
  {
    if kept != [] {
      var p := kept[..|kept| - 1];
      assert Returned(rows, p, tmap);
      SubRowsBounds(rows, p, tmap, tags);
      assert ReturnedIds(rows, p, tmap) <= ReturnedIds(rows, kept, tmap) by {
        forall j | 0 <= j < |p| ensures rows[p[j].providerId].id in ReturnedIds(rows, kept, tmap) {
          assert p[j] == kept[j];
        }
      }
      assert rows[kept[|kept| - 1].providerId].id in ReturnedIds(rows, kept, tmap);
    }
  }

  /** What was collected for one returned row: the links to its tags that
      the snapshot holds, and its detail rows when it has them. */
  lemma {:induction false} SubRowsAt(rows: map<string, Keyed<TransactionRow>>, kept: seq<Proposed>,
                                     tmap: map<string, TransactionResource>, tags: set<TagId>, j: nat)
    requires Returned(rows, kept, tmap) && DistinctKeys(kept, ProposedKey) && Injective(rows) && j < |kept|
    ensures var sub := SubRowsOf(rows, kept, tmap, tags);
      var id := rows[kept[j].providerId].id;
      var a := tmap[kept[j].providerId].attributes;
      && (forall tag :: (id, tag) in sub.links <==> tag in TagsOf(tmap[kept[j].providerId]) && tag in tags)
      && At(sub.holdInfo, id) == (if a.holdInfo.Some? then Some(HoldInfoRowOf(a.holdInfo.value)) else None)
      && At(sub.roundUps, id) == (if a.roundUp.Some? then Some(RoundUpRowOf(a.roundUp.value)) else None)
      && At(sub.cashbacks, id) == (if a.cashback.Some? then Some(CashbackRowOf(a.cashback.value)) else None)
    decreases |kept|
  {
    var n := |kept| - 1;
    var p := kept[..n];
    assert Returned(rows, p, tmap);
    assert forall i :: 0 <= i < n ==> p[i] == kept[i];
    var id := rows[kept[j].providerId].id;
    var lastId := rows[kept[n].providerId].id;
    if j == n {
      SubRowsBounds(rows, p, tmap, tags);
      assert id !in ReturnedIds(rows, p, tmap) by {
        forall i | 0 <= i < n ensures rows[p[i].providerId].id != id {
          assert ProposedKey(kept[i]) != ProposedKey(kept[n]);
        }
      }
    } else {
      SubRowsAt(rows, p, tmap, tags, j);
      assert ProposedKey(kept[j]) != ProposedKey(kept[n]);
      assert lastId != id;
    }
  }

  /** The follow-up statements at the surrogate id of a returned row. */
  lemma ApplyAt(base: Store, rows: map<string, Keyed<TransactionRow>>, kept: seq<Proposed>,
                tmap: map<string, TransactionResource>, tags: set<TagId>, j: nat)
    requires Returned(rows, kept, tmap) && DistinctKeys(kept, ProposedKey) && Injective(rows) && j < |kept|
    ensures var r := ApplySubRows(base, SubRowsOf(rows, kept, tmap, tags));
      var id := rows[kept[j].providerId].id;
      var tx := tmap[kept[j].providerId];
      var a := tx.attributes;
      && (forall tag :: (id, tag) in r.transactionTags <==>
            (id, tag) in base.transactionTags || (tag in TagsOf(tx) && tag in tags))
      && At(r.holdInfo, id) == (if a.holdInfo.Some? then Some(HoldInfoRowOf(a.holdInfo.value)) else At(base.holdInfo, id))
      && At(r.roundUps, id) == (if a.roundUp.Some? then Some(RoundUpRowOf(a.roundUp.value)) else At(base.roundUps, id))
      && At(r.cashbacks, id) == (if a.cashback.Some? then Some(CashbackRowOf(a.cashback.value)) else At(base.cashbacks, id))
  {
    SubRowsAt(rows, kept, tmap, tags, j);
  }

  /** The follow-up statements leave every other surrogate id alone. */
  lemma ApplyFrame(base: Store, rows: map<string, Keyed<TransactionRow>>, kept: seq<Proposed>,
                   tmap: map<string, TransactionResource>, tags: set<TagId>, id: nat)
    requires Returned(rows, kept, tmap) && id !in ReturnedIds(rows, kept, tmap)
    ensures var r := ApplySubRows(base, SubRowsOf(rows, kept, tmap, tags));
      && (forall tag :: (id, tag) in r.transactionTags <==> (id, tag) in base.transactionTags)
      && At(r.holdInfo, id) == At(base.holdInfo, id)
      && At(r.roundUps, id) == At(base.roundUps, id)
      && At(r.cashbacks, id) == At(base.cashbacks, id)
  {
    SubRowsBounds(rows, kept, tmap, tags);
  }

  // ---------------------------------------------------------------------
  // A whole page

  /** The store a committed page leaves: the upsert, then the follow-up
      statements over the rows it returned. */
  lemma PageStore(st: Ingest, txs: seq<TransactionResource>, now: Time, processName: string)
    requires Valid(st.store) && DistinctIds(txs)
    ensures var s := st.store;
      var snap := SnapshotOf(s);
      var kept := KeptOf(snap, txs, now, processName);
      var t := UpsertAll(s.transactions, kept, ProposedKey, ProposedRow, RefreshedRow);
      && Returned(t.rows, kept, TxMap(txs))
      && UpsertTransactionsPage(st, txs, now, processName).state.store ==
           (if kept == [] then s else ApplySubRows(s.(transactions := t), SubRowsOf(t.rows, kept, TxMap(txs), snap.tags)))
  {
    var s := st.store;
    var kept := KeptOf(SnapshotOf(s), txs, now, processName);
    PageCommits(st, txs, now, processName);
    KeptReturned(s, kept, txs);
  }

  /** The surrogate ids of the rows whose provider ids are in `pids`. */
  function SurrogatesOf(s: Store, pids: set<string>): set<nat>
  {
    set k | k in s.transactions.rows && k in pids :: s.transactions.rows[k].id
  }

  /** The store after the upsert and the follow-up statements of a
      non-empty page. */
  function Committed(s: Store, txs: seq<TransactionResource>, now: Time, processName: string): Store
    requires KeptOf(SnapshotOf(s), txs, now, processName) != []
  {
    var snap := SnapshotOf(s);
    var kept := KeptOf(snap, txs, now, processName);
    var t := UpsertAll(s.transactions, kept, ProposedKey, ProposedRow, RefreshedRow);
    KeptReturned(s, kept, txs);
    ApplySubRows(s.(transactions := t), SubRowsOf(t.rows, kept, TxMap(txs), snap.tags))
  }

  lemma CommittedKept(s: Store, txs: seq<TransactionResource>, now: Time, processName: string, i: nat)
    requires Valid(s) && DistinctIds(txs) && i < |txs|
    requires Remap(SnapshotOf(s), txs[i], now, processName).Kept?
    requires KeptOf(SnapshotOf(s), txs, now, processName) != []
    ensures var r := Committed(s, txs, now, processName);
      var tx := txs[i];
      var a := tx.attributes;
      && tx.id in r.transactions.rows
      && var id := r.transactions.rows[tx.id].id;
      && (forall tag :: (id, tag) in r.transactionTags <==>
            (id, tag) in s.transactionTags || (tag in TagsOf(tx) && tag in s.tags))
      && At(r.holdInfo, id) == (if a.holdInfo.Some? then Some(HoldInfoRowOf(a.holdInfo.value)) else At(s.holdInfo, id))
      && At(r.roundUps, id) == (if a.roundUp.Some? then Some(RoundUpRowOf(a.roundUp.value)) else At(s.roundUps, id))
      && At(r.cashbacks, id) == (if a.cashback.Some? then Some(CashbackRowOf(a.cashback.value)) else At(s.cashbacks, id))
  {
    var snap := SnapshotOf(s);
    var kept := KeptOf(snap, txs, now, processName);
    var t := UpsertAll(s.transactions, kept, ProposedKey, ProposedRow, RefreshedRow);
    KeptReturned(s, kept, txs);
    KeptDistinct(snap, txs, now, processName);
    KeptKeys(snap, txs, now, processName);
    UpsertAllWellFormed(s.transactions, kept, ProposedKey, ProposedRow, RefreshedRow);
    assert txs[i].id in KeptIds(snap, txs, now, processName);
    var j :| 0 <= j < |kept| && ProposedKey(kept[j]) == txs[i].id;
    TxMapAt(txs, i);
    ApplyAt(s.(transactions := t), t.rows, kept, TxMap(txs), snap.tags, j);
  }

  lemma CommittedFrame(s: Store, txs: seq<TransactionResource>, now: Time, processName: string, id: nat)
    requires Valid(s) && DistinctIds(txs)
    requires KeptOf(SnapshotOf(s), txs, now, processName) != []
    requires id !in SurrogatesOf(Committed(s, txs, now, processName), KeptIds(SnapshotOf(s), txs, now, processName))
    ensures var r := Committed(s, txs, now, processName);
      && (forall tag :: (id, tag) in r.transactionTags <==> (id, tag) in s.transactionTags)
      && At(r.holdInfo, id) == At(s.holdInfo, id)
      && At(r.roundUps, id) == At(s.roundUps, id)
      && At(r.cashbacks, id) == At(s.cashbacks, id)
  {
    var snap := SnapshotOf(s);
    var kept := KeptOf(snap, txs, now, processName);
    var t := UpsertAll(s.transactions, kept, ProposedKey, ProposedRow, RefreshedRow);
    KeptReturned(s, kept, txs);
    KeptOfShape(snap, txs, now, processName);
    UpsertAllFrame(s.transactions, kept, ProposedKey, ProposedRow, RefreshedRow);
    assert id !in ReturnedIds(t.rows, kept, TxMap(txs)) by {
      forall j | 0 <= j < |kept| ensures t.rows[kept[j].providerId].id != id {
        assert ProposedKey(kept[j]) in BatchKeys(kept, ProposedKey);
      }
    }
    ApplyFrame(s.(transactions := t), t.rows, kept, TxMap(txs), snap.tags, id);
  }

  /** The follow-up statements for a kept transaction: it is linked to
      each of its tags that the snapshot holds (earlier links stay), and
      its hold-info, round-up and cashback rows are written when it has
      them; one it does not have is left as it was, a stale row included. */
  lemma PageDetailsKept(st: Ingest, txs: seq<TransactionResource>, now: Time, processName: string, i: nat)
    requires Valid(st.store) && DistinctIds(txs) && i < |txs|
    requires Remap(SnapshotOf(st.store), txs[i], now, processName).Kept?
    ensures var s := st.store;
      var r := UpsertTransactionsPage(st, txs, now, processName).state.store;
      var tx := txs[i];
      var a := tx.attributes;
      && tx.id in r.transactions.rows
      && var id := r.transactions.rows[tx.id].id;
      && (forall tag :: (id, tag) in r.transactionTags <==>
            (id, tag) in s.transactionTags || (tag in TagsOf(tx) && tag in s.tags))
      && At(r.holdInfo, id) == (if a.holdInfo.Some? then Some(HoldInfoRowOf(a.holdInfo.value)) else At(s.holdInfo, id))
      && At(r.roundUps, id) == (if a.roundUp.Some? then Some(RoundUpRowOf(a.roundUp.value)) else At(s.roundUps, id))
      && At(r.cashbacks, id) == (if a.cashback.Some? then Some(CashbackRowOf(a.cashback.value)) else At(s.cashbacks, id))
  {
    KeptOfShape(SnapshotOf(st.store), txs, now, processName);
    assert txs[i].id in KeptIds(SnapshotOf(st.store), txs, now, processName);
    PageStore(st, txs, now, processName);
    CommittedKept(st.store, txs, now, processName, i);
  }

  /** The follow-up statements touch no surrogate id outside the kept
      transactions: their links and detail rows are left as they were. */
  lemma PageDetailsFrame(st: Ingest, txs: seq<TransactionResource>, now: Time, processName: string, id: nat)
    requires Valid(st.store) && DistinctIds(txs)
    requires var r := UpsertTransactionsPage(st, txs, now, processName).state.store;
      id !in SurrogatesOf(r, KeptIds(SnapshotOf(st.store), txs, now, processName))
    ensures var s := st.store;
      var r := UpsertTransactionsPage(st, txs, now, processName).state.store;
      && (forall tag :: (id, tag) in r.transactionTags <==> (id, tag) in s.transactionTags)
      && At(r.holdInfo, id) == At(s.holdInfo, id)
      && At(r.roundUps, id) == At(s.roundUps, id)
      && At(r.cashbacks, id) == At(s.cashbacks, id)
  {
    PageStore(st, txs, now, processName);
    if KeptOf(SnapshotOf(st.store), txs, now, processName) != [] {
      CommittedFrame(st.store, txs, now, processName, id);
    }
  }

  lemma CommittedValid(s: Store, txs: seq<TransactionResource>, now: Time, processName: string)
    requires Valid(s)
    requires KeptOf(SnapshotOf(s), txs, now, processName) != []
    requires DistinctKeys(KeptOf(SnapshotOf(s), txs, now, processName), ProposedKey)
    ensures var r := Committed(s, txs, now, processName);
      Valid(r) && r.accounts == s.accounts && r.categories == s.categories && r.tags == s.tags
  {
    var snap := SnapshotOf(s);
    var kept := KeptOf(snap, txs, now, processName);
    var t := UpsertAll(s.transactions, kept, ProposedKey, ProposedRow, RefreshedRow);
    var u := s.(transactions := t);
    KeptReturned(s, kept, txs);
    KeptRowsHold(s, snap, txs, now, processName);
    UpsertKeepsTransactionKeys(s, kept);
    UpsertAllWellFormed(s.transactions, kept, ProposedKey, ProposedRow, RefreshedRow);
    UpsertAllKeepsIds(s.transactions, kept, ProposedKey, ProposedRow, RefreshedRow);
    SubRowsBounds(t.rows, kept, TxMap(txs), snap.tags);
    assert TransactionIds(s) <= TransactionIds(u) by {
      forall k | k in s.transactions.rows ensures s.transactions.rows[k].id in TransactionIds(u) {
        assert t.rows[k].id == s.transactions.rows[k].id;
      }
    }
    assert ReturnedIds(t.rows, kept, TxMap(txs)) <= TransactionIds(u);
  }

  /** A page never touches `account`, `category` or `tag`, and leaves a
      valid store valid, whether it commits or is refused: every row it
      writes satisfies the foreign keys and the unique surrogate ids. */
  lemma PageValid(st: Ingest, txs: seq<TransactionResource>, now: Time, processName: string)
    requires Valid(st.store)
    ensures var s := st.store;
      var r := UpsertTransactionsPage(st, txs, now, processName).state.store;
      Valid(r) && r.accounts == s.accounts && r.categories == s.categories && r.tags == s.tags
  {
    var s := st.store;
    var kept := KeptOf(SnapshotOf(s), txs, now, processName);
    if kept != [] && UpsertTransactionRows(s, kept).Ok? {
      assert UpsertTransactionsPage(st, txs, now, processName).state.store == Committed(s, txs, now, processName);
      CommittedValid(s, txs, now, processName);
    }
  }

  /** A proposed row as another run would propose it: the same row with
      that run's stamp. */
  function Restamped(p: Proposed, now: Time, processName: string): Proposed
  {
    p.(row := p.row.(updatedAt := Some(now), updatedBy := Some(processName)))
  }

  /** A later run remaps a page against the same snapshot to the same rows
      in the same order, differing only in the stamp. */
  lemma {:induction false} KeptRestamped(snap: Snapshot, txs: seq<TransactionResource>,
                                         now: Time, processName: string, later: Time, laterName: string)
    ensures var k1 := KeptOf(snap, txs, now, processName);
      var k2 := KeptOf(snap, txs, later, laterName);
      && |k2| == |k1|
      && forall i :: 0 <= i < |k1| ==> k2[i] == Restamped(k1[i], later, laterName)
    decreases |txs|
  {
    if txs != [] {
      var p := txs[..|txs| - 1];
      KeptRestamped(snap, p, now, processName, later, laterName);
    }
  }

  /** The conflict update overrides any earlier one, and turns a row
      inserted by another run into the row this run would insert. */
  lemma RefreshedRowLaws()
    ensures forall row, p1, p2 :: RefreshedRow(RefreshedRow(row, p1), p2) == RefreshedRow(row, p2)
    ensures forall p, now, processName :: RefreshedRow(ProposedRow(p), Restamped(p, now, processName)) == ProposedRow(Restamped(p, now, processName))
  {
  }

  /** The follow-up rows depend only on the provider ids of the kept rows
      and the surrogate ids they were given. */
  lemma {:induction false} SubRowsSameIds(rows1: map<string, Keyed<TransactionRow>>, kept1: seq<Proposed>,
                                          rows2: map<string, Keyed<TransactionRow>>, kept2: seq<Proposed>,
                                          tmap: map<string, TransactionResource>, tags: set<TagId>)
    requires Returned(rows1, kept1, tmap) && Returned(rows2, kept2, tmap) && |kept2| == |kept1|
    requires forall i :: 0 <= i < |kept1| ==> kept2[i].providerId == kept1[i].providerId
    requires forall i :: 0 <= i < |kept1| ==> rows2[kept2[i].providerId].id == rows1[kept1[i].providerId].id
    ensures SubRowsOf(rows2, kept2, tmap, tags) == SubRowsOf(rows1, kept1, tmap, tags)
    decreases |kept1|
  {
    if kept1 != [] {
      var n := |kept1| - 1;
      assert Returned(rows1, kept1[..n], tmap) && Returned(rows2, kept2[..n], tmap);
      SubRowsSameIds(rows1, kept1[..n], rows2, kept2[..n], tmap, tags);
    }
  }

  /** Sending the same follow-up statements again changes nothing. */
  lemma ApplySubRowsTwice(u: Store, sub: SubRows, t: Table<TransactionRow>)
    ensures ApplySubRows(ApplySubRows(u, sub).(transactions := t), sub) == ApplySubRows(u, sub).(transactions := t)
  {
  }

  /** Committing a page, then committing it again at a later time under
      any process name, leaves the store that the later commit alone
      leaves, apart from the identity sequence. */
  lemma CommittedTwice(s: Store, txs: seq<TransactionResource>, now: Time, processName: string,
                       later: Time, laterName: string)
    requires Valid(s) && DistinctIds(txs)
    requires KeptOf(SnapshotOf(s), txs, now, processName) != []
    ensures var once := Committed(s, txs, now, processName);
      && SnapshotOf(once) == SnapshotOf(s)
      && KeptOf(SnapshotOf(s), txs, later, laterName) != []
      && var twice := Committed(once, txs, later, laterName);
      var single := Committed(s, txs, later, laterName);
      twice == single.(transactions := single.transactions.(next := twice.transactions.next))
  {
    var snap := SnapshotOf(s);
    var k1 := KeptOf(snap, txs, now, processName);
    var k2 := KeptOf(snap, txs, later, laterName);
    KeptRestamped(snap, txs, now, processName, later, laterName);
    var t1 := UpsertAll(s.transactions, k1, ProposedKey, ProposedRow, RefreshedRow);
    var ts := UpsertAll(s.transactions, k2, ProposedKey, ProposedRow, RefreshedRow);
    KeptReturned(s, k1, txs);
    KeptReturned(s, k2, txs);
    var sub := SubRowsOf(t1.rows, k1, TxMap(txs), snap.tags);
    var once := Committed(s, txs, now, processName);
    assert once == ApplySubRows(s.(transactions := t1), sub);
    KeptDistinct(snap, txs, now, processName);
    CommittedValid(s, txs, now, processName);
    assert SnapshotOf(once) == snap;
    RefreshedRowLaws();
    UpsertAllReplay(s.transactions, ProposedKey, k1, ProposedRow, RefreshedRow, k2, ProposedRow, RefreshedRow);
    var t2 := UpsertAll(t1, k2, ProposedKey, ProposedRow, RefreshedRow);
    assert t2.rows == ts.rows;
    forall i | 0 <= i < |k1| ensures ts.rows[k2[i].providerId].id == t1.rows[k1[i].providerId].id {
      UpsertAllAt(s.transactions, k1, ProposedKey, ProposedRow, RefreshedRow, i);
      assert DistinctKeys(k2, ProposedKey) by {
        forall a, b | 0 <= a < b < |k2| ensures ProposedKey(k2[a]) != ProposedKey(k2[b]) {
          assert ProposedKey(k1[a]) != ProposedKey(k1[b]);
        }
      }
      UpsertAllAt(s.transactions, k2, ProposedKey, ProposedRow, RefreshedRow, i);
    }
    SubRowsSameIds(t1.rows, k1, ts.rows, k2, TxMap(txs), snap.tags);
    assert SubRowsOf(t2.rows, k2, TxMap(txs), snap.tags) == sub;
    var twice := Committed(once, txs, later, laterName);
    assert twice == ApplySubRows(once.(transactions := t2), sub);
    ApplySubRowsTwice(s.(transactions := t1), sub, t2);
    assert Committed(s, txs, later, laterName) == ApplySubRows(s.(transactions := ts), sub);
  }

  /** Ingesting the same page again, at a later time and under any process
      name (the nightly walk after the webhook, say), leaves every row of
      every table as ingesting it once at that later time does; only the
      identity sequence moves on. Replayed at the same time, the second
      pass writes nothing new. */
  lemma PageIdempotent(st: Ingest, txs: seq<TransactionResource>, now: Time, processName: string,
                       later: Time, laterName: string)
    requires Valid(st.store) && DistinctIds(txs)
    ensures var once := UpsertTransactionsPage(st, txs, now, processName).state;
      var twice := UpsertTransactionsPage(once, txs, later, laterName).state;
      var single := UpsertTransactionsPage(st, txs, later, laterName).state;
      twice.store == single.store.(transactions := single.store.transactions.(next := twice.store.transactions.next))
  {
    var s := st.store;
    var once := UpsertTransactionsPage(st, txs, now, processName).state;
    PageStore(st, txs, now, processName);
    PageValid(st, txs, now, processName);
    PageStore(once, txs, later, laterName);
    PageStore(st, txs, later, laterName);
    KeptRestamped(SnapshotOf(s), txs, now, processName, later, laterName);
    if KeptOf(SnapshotOf(s), txs, now, processName) != [] {
      CommittedTwice(s, txs, now, processName, later, laterName);
    } else {
      assert SnapshotOf(once.store) == SnapshotOf(s);
    }
  }
}

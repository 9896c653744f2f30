/** Soft deletes, the whole `processTransactions` walk and the webhook's
    single-transaction path. */
module TransactionRuns {
  import opened Wrappers
  import opened Upsert
  import opened Schema
  import opened Fetch
  import opened Transactions
  import opened TransactionFacts
  import opened PageFacts

  /** A soft delete takes the transaction out of `transaction_external`
      and stamps it, keeping its id, details and category; no other row
      and no other table changes, and an unknown provider id changes
      nothing. */
  lemma DeleteTransactionEffect(s: Store, providerId: string, now: Time, processName: string)
    ensures var r := DeleteTransaction(s, providerId, now, processName);
      && providerId !in TransactionExternal(r)
      && r.transactions.rows.Keys == s.transactions.rows.Keys
      && r.transactions.next == s.transactions.next
      && (forall k :: k in s.transactions.rows && k != providerId ==> r.transactions.rows[k] == s.transactions.rows[k])
      && (providerId in s.transactions.rows ==>
            var before := s.transactions.rows[providerId];
            var after := r.transactions.rows[providerId];
            && after.id == before.id
            && after.row.deletedAt == Some(now)
            && after.row.updatedBy == Some(processName)
            && after.row.updatedAt == before.row.updatedAt
            && after.row.details == before.row.details
            && after.row.categoryId == before.row.categoryId)
      && r.(transactions := s.transactions) == s
  {
  }

  lemma DeleteTransactionValid(s: Store, providerId: string, now: Time, processName: string)
    requires Valid(s)
    ensures Valid(DeleteTransaction(s, providerId, now, processName))
  {
    if providerId in s.transactions.rows {
      var r := DeleteTransaction(s, providerId, now, processName);
      assert providerId in s.transactions.rows ==> s.transactions.rows[providerId].row.categoryId.Some? ==> s.transactions.rows[providerId].row.categoryId.value in s.categories;
      RewriteTransactionsValid(s, r.transactions);
    }
  }

  /** Ingesting a soft-deleted transaction again does not bring it back:
      the upsert keeps `deleted_at`, so it stays out of the view. */
  lemma DeletedStaysDeleted(s: Store, providerId: string, deletedAt: Time, deletedBy: string,
                            m: Metrics, txs: seq<TransactionResource>, now: Time, processName: string, i: nat)
    requires Valid(s) && providerId in s.transactions.rows
    requires DistinctIds(txs) && i < |txs| && txs[i].id == providerId
    ensures var d := DeleteTransaction(s, providerId, deletedAt, deletedBy);
      var r := UpsertTransactionsPage(Ingest(d, m), txs, now, processName).state.store;
      && providerId in r.transactions.rows
      && r.transactions.rows[providerId].row.deletedAt == Some(deletedAt)
      && providerId !in TransactionExternal(r)
  {
    var d := DeleteTransaction(s, providerId, deletedAt, deletedBy);
    DeleteTransactionValid(s, providerId, deletedAt, deletedBy);
    var st := Ingest(d, m);
    PageRowsFrame(st, txs, now, processName);
    if Remap(SnapshotOf(d), txs[i], now, processName).Kept? {
      PageRowKept(st, txs, now, processName, i);
    } else {
      SkippedNotKept(SnapshotOf(d), txs, now, processName, i);
    }
  }

  /** `processTransactions` keeps a valid store valid and never writes to
      `account`, `category` or `tag`; an exhausted rate limit on the first
      response writes nothing at all. */
  lemma ProcessTransactionsValid(s: Store, firstRateLimit: Option<string>, listing: Listing<TransactionResource>, clock: int -> Time)
    requires Valid(s)
    ensures var r := if RateLimitExhausted(firstRateLimit) then Failed(Ingest(s, NewMetrics()), RateLimitExceeded)
                     else ListingWalk(Ingest(s, NewMetrics()), listing, OnTransactionsPage(clock)).run;
      && Valid(r.state.store)
      && r.state.store.accounts == s.accounts
      && r.state.store.categories == s.categories
      && r.state.store.tags == s.tags
  {
    var P := (st: Ingest) => Valid(st.store) && st.store.accounts == s.accounts && st.store.categories == s.categories && st.store.tags == s.tags;
    forall st: Ingest, items: seq<TransactionResource>, page: int | P(st) ensures P(OnTransactionsPage(clock)(st, items, page).state) {
      PageValid(st, items, clock(page), ProcessAllName);
    }
    ListingPreserves(Ingest(s, NewMetrics()), listing, OnTransactionsPage(clock), P);
  }

  /** The webhook's insert path on a valid store never fails: a
      transaction whose accounts are known is stored with its details,
      and one whose account is missing leaves the store as it was. */
  lemma ProcessOneInsert(s: Store, t: TransactionResource, now: Time)
    requires Valid(s)
    ensures var page := UpsertTransactionsPage(Ingest(s, NewMetrics()), [t], now, ProcessOneName);
      && page.Done?
      && Valid(page.state.store)
      && (Remap(SnapshotOf(s), t, now, ProcessOneName).Kept? ==>
            t.id in page.state.store.transactions.rows &&
            page.state.store.transactions.rows[t.id].row.details == Transactions.Details(t))
      && (Remap(SnapshotOf(s), t, now, ProcessOneName).Skipped? ==> page.state.store == s)
  {
    var st := Ingest(s, NewMetrics());
    PageCommits(st, [t], now, ProcessOneName);
    PageValid(st, [t], now, ProcessOneName);
    if Remap(SnapshotOf(s), t, now, ProcessOneName).Kept? {
      PageRowKept(st, [t], now, ProcessOneName, 0);
    } else {
      assert KeptOf(SnapshotOf(s), [t], now, ProcessOneName) == [];
    }
  }
}

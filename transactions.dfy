/** `processTransactions` / `processTransaction`: a page of Up transactions
    is remapped against a snapshot of the account, category and tag tables,
    upserted into `transaction`, and fanned out into the link table and the
    hold-info, round-up and cashback tables. */
module Transactions {
  import opened Wrappers
  import opened Upsert
  import opened Schema
  import opened Fetch

  // ---------------------------------------------------------------------
  // The API resource

  datatype CardPurchaseMethod = CardPurchaseMethod(purchaseMethod: Option<string>, cardNumberSuffix: Option<string>)
  datatype HoldInfo = HoldInfo(amount: Money, foreignAmount: Option<Money>)
  datatype RoundUp = RoundUp(amount: Money, boostPortion: Option<Money>)
  datatype Cashback = Cashback(description: string, amount: Money)

  /** The attributes of an Up `TransactionResource` the remap reads; `note`
      is `note?.text` and `customerDisplayName` is
      `performingCustomer?.displayName`. */
  datatype TxAttributes = TxAttributes(
    status: string, rawText: Option<string>, description: string, message: Option<string>,
    note: Option<string>, cardPurchaseMethod: Option<CardPurchaseMethod>,
    customerDisplayName: Option<string>, deepLinkUrl: Option<string>, isCategorizable: bool,
    amount: Money, foreignAmount: Option<Money>, createdAt: Time, settledAt: Option<Time>,
    transactionType: Option<string>, holdInfo: Option<HoldInfo>, roundUp: Option<RoundUp>,
    cashback: Option<Cashback>)

  /** A transaction and the ids of its relationships: `account.data.id`,
      `transferAccount?.data?.id`, `category.data?.id`,
      `attachment.data?.id` and `tags.data`. */
  datatype TransactionResource = TransactionResource(
    id: string, attributes: TxAttributes, accountId: string, transferAccountId: Option<string>,
    categoryId: Option<string>, attachmentId: Option<string>, tagIds: Option<seq<TagId>>)

  // ---------------------------------------------------------------------
  // Remapping

  /** The three `SELECT`s taken when a page starts: provider id to
      surrogate id for accounts, and the category and tag ids. */
  datatype Snapshot = Snapshot(accountMap: map<string, nat>, categories: set<CategoryId>, tags: set<TagId>)

  function SnapshotOf(s: Store): Snapshot
  {
    Snapshot(map k | k in s.accounts.rows :: s.accounts.rows[k].id, s.categories.Keys, s.tags)
  }

  /** `accountMap.get(id)` is truthy: present and not 0. */
  predicate HasAccount(snap: Snapshot, providerId: string)
  {
    providerId in snap.accountMap && snap.accountMap[providerId] != 0
  }

  /** A row proposed for `transaction`, with its provider id. */
  datatype Proposed = Proposed(providerId: string, row: TransactionRow)

  /** What `remap` returns: `null` (with the account that was missing), or
      the row (with the category that was missing, if one was). */
  datatype Remapped = Skipped(missingAccount: string) | Kept(proposed: Proposed, missingCategory: Option<CategoryId>)

  function ForeignCode(m: Option<Money>): Option<string> { if m.Some? then Some(m.value.currencyCode) else None }
  function ForeignValue(m: Option<Money>): Option<string> { if m.Some? then Some(m.value.value) else None }
  function ForeignUnits(m: Option<Money>): Option<int> { if m.Some? then Some(m.value.valueInBaseUnits) else None }

  /** The columns `remap` fills from the attributes; `|| null` turns an
      empty string, and a foreign amount of 0 base units, into null. */
  function Details(t: TransactionResource): TxDetails
  {
    var a := t.attributes;
    var cpm := a.cardPurchaseMethod;
    TxDetails(
      a.transactionType, a.status, OrNull(t.attachmentId), a.rawText, Some(a.description), a.message,
      OrNull(a.note),
      OrNull(if cpm.Some? then cpm.value.purchaseMethod else None),
      OrNull(if cpm.Some? then cpm.value.cardNumberSuffix else None),
      OrNull(a.customerDisplayName), OrNull(a.deepLinkUrl), a.isCategorizable, a.amount,
      OrNull(ForeignCode(a.foreignAmount)), OrNull(ForeignValue(a.foreignAmount)),
      OrNullInt(ForeignUnits(a.foreignAmount)), a.settledAt)
  }

  /** `remap`: skipped when its account, or its transfer account when it
      names one, is not in the snapshot; a category that is not there is
      reported and left null. */
  function Remap(snap: Snapshot, t: TransactionResource, now: Time, processName: string): (r: Remapped)
    ensures r.Skipped? <==> !HasAccount(snap, t.accountId) || (Truthy(t.transferAccountId) && !HasAccount(snap, t.transferAccountId.value))
    ensures r.Kept? ==> r.proposed.providerId == t.id
  {
    if !HasAccount(snap, t.accountId) then Skipped(t.accountId)
    else if Truthy(t.transferAccountId) && !HasAccount(snap, t.transferAccountId.value) then Skipped(t.transferAccountId.value)
    else
      var transfer := if Truthy(t.transferAccountId) then Some(snap.accountMap[t.transferAccountId.value]) else None;
      var known := Truthy(t.categoryId) && t.categoryId.value in snap.categories;
      var category := if known then t.categoryId else None;
      var missing := if Truthy(t.categoryId) && !known then t.categoryId else None;
      Kept(Proposed(t.id, TransactionRow(Details(t), category, snap.accountMap[t.accountId], transfer,
                                         t.attributes.createdAt, None, Some(now), Some(processName))),
           missing)
  }

  function TxIdsOf(txs: seq<TransactionResource>): set<string>
  {
    set i | 0 <= i < |txs| :: txs[i].id
  }

  /** `transactions.map(remap).filter(…)`. */
  function KeptOf(snap: Snapshot, txs: seq<TransactionResource>, now: Time, processName: string): (r: seq<Proposed>)
    ensures |r| <= |txs|
    ensures forall j :: 0 <= j < |r| ==> r[j].providerId in TxIdsOf(txs)
    decreases |txs|
  {
    if txs == [] then []
    else
      var p := txs[..|txs| - 1];
      var rm := Remap(snap, txs[|txs| - 1], now, processName);
      assert TxIdsOf(p) <= TxIdsOf(txs);
      KeptOf(snap, p, now, processName) + (if rm.Kept? then [rm.proposed] else [])
  }

  function MissingAccountsOf(snap: Snapshot, txs: seq<TransactionResource>, now: Time, processName: string): set<string>
    decreases |txs|
  {
    if txs == [] then {}
    else
      var rm := Remap(snap, txs[|txs| - 1], now, processName);
      MissingAccountsOf(snap, txs[..|txs| - 1], now, processName) + (if rm.Skipped? then {rm.missingAccount} else {})
  }

  function MissingCategoriesOf(snap: Snapshot, txs: seq<TransactionResource>, now: Time, processName: string): set<CategoryId>
    decreases |txs|
  {
    if txs == [] then {}
    else
      var rm := Remap(snap, txs[|txs| - 1], now, processName);
      MissingCategoriesOf(snap, txs[..|txs| - 1], now, processName)
        + (if rm.Kept? && rm.missingCategory.Some? then {rm.missingCategory.value} else {})
  }

  /** `new Map(transactions.map((tx) => [tx.id, tx]))`: the last resource
      with an id wins. */
  function TxMap(txs: seq<TransactionResource>): (r: map<string, TransactionResource>)
    ensures r.Keys == TxIdsOf(txs)
    decreases |txs|
  {
    if txs == [] then map[]
    else
      var p := txs[..|txs| - 1];
      assert TxIdsOf(txs) == TxIdsOf(p) + {txs[|txs| - 1].id};
      TxMap(p)[txs[|txs| - 1].id := txs[|txs| - 1]]
  }

  // ---------------------------------------------------------------------
  // The statements

  const TransactionForeignKey := "insert or update on table \"transaction\" violates foreign key constraint"

  function ProposedKey(p: Proposed): string { p.providerId }
  function ProposedRow(p: Proposed): TransactionRow { p.row }

  /** The `ON CONFLICT (provider_id) DO UPDATE SET` of an existing row: the
      listed columns, `category_id` included, and the stamp. `account_id`,
      `transfer_account_id`, `created_at` and `deleted_at` stay. */
  function RefreshedRow(row: TransactionRow, p: Proposed): TransactionRow
  {
    row.(details := p.row.details, categoryId := p.row.categoryId, updatedAt := p.row.updatedAt, updatedBy := p.row.updatedBy)
  }

  /** The upsert into `transaction`; Postgres checks the foreign keys of
      the rows it leaves. */
  function UpsertTransactionRows(s: Store, kept: seq<Proposed>): (r: Result<Store>)
    ensures r.Ok? ==> r.value == s.(transactions := UpsertAll(s.transactions, kept, ProposedKey, ProposedRow, RefreshedRow))
  {
    var u := UpsertRows(s.transactions, kept, ProposedKey, ProposedRow, RefreshedRow);
    if u.Err? then Err(u.error)
    else if !TransactionKeys(s.(transactions := u.value)) then Err(TransactionForeignKey)
    else Ok(s.(transactions := u.value))
  }

  function HoldInfoRowOf(h: HoldInfo): HoldInfoRow
  {
    HoldInfoRow(h.amount, ForeignCode(h.foreignAmount), ForeignValue(h.foreignAmount), ForeignUnits(h.foreignAmount))
  }

  function RoundUpRowOf(r: RoundUp): RoundUpRow
  {
    RoundUpRow(r.amount, ForeignCode(r.boostPortion), ForeignValue(r.boostPortion), ForeignUnits(r.boostPortion))
  }

  function CashbackRowOf(c: Cashback): CashbackRow
  {
    CashbackRow(c.description, c.amount)
  }

  function TagsOf(t: TransactionResource): seq<TagId>
  {
    if t.tagIds.Some? then t.tagIds.value else []
  }

  /** The links pushed for one transaction: its tags that are in the
      snapshot. */
  function LinkRows(id: nat, tagIds: seq<TagId>, tags: set<TagId>): (r: set<(nat, TagId)>)
    ensures forall link :: link in r <==> link.0 == id && link.1 in tagIds && link.1 in tags
    decreases |tagIds|
  {
    if tagIds == [] then {}
    else
      var p := tagIds[..|tagIds| - 1];
      assert forall x :: x in tagIds <==> x in p || x == tagIds[|tagIds| - 1];
      LinkRows(id, p, tags) + (if tagIds[|tagIds| - 1] in tags then {(id, tagIds[|tagIds| - 1])} else {})
  }

  /** The rows collected for the link and detail tables, each keyed by the
      transaction's surrogate id. */
  datatype SubRows = SubRows(links: set<(nat, TagId)>, holdInfo: map<nat, HoldInfoRow>,
                             roundUps: map<nat, RoundUpRow>, cashbacks: map<nat, CashbackRow>)

  /** What the loop body pushes for one returned row. */
  function AddSubRows(acc: SubRows, id: nat, t: TransactionResource, tags: set<TagId>): SubRows
  {
    var a := t.attributes;
    SubRows(
      acc.links + LinkRows(id, TagsOf(t), tags),
      if a.holdInfo.Some? then acc.holdInfo[id := HoldInfoRowOf(a.holdInfo.value)] else acc.holdInfo,
      if a.roundUp.Some? then acc.roundUps[id := RoundUpRowOf(a.roundUp.value)] else acc.roundUps,
      if a.cashback.Some? then acc.cashbacks[id := CashbackRowOf(a.cashback.value)] else acc.cashbacks)
  }

  predicate Returned(rows: map<string, Keyed<TransactionRow>>, kept: seq<Proposed>, tmap: map<string, TransactionResource>)
  {
    forall i :: 0 <= i < |kept| ==> kept[i].providerId in rows && kept[i].providerId in tmap
  }

  /** The loop over the returned `{ id, provider_id }` rows. */
  function SubRowsOf(rows: map<string, Keyed<TransactionRow>>, kept: seq<Proposed>,
                     tmap: map<string, TransactionResource>, tags: set<TagId>): SubRows
    requires Returned(rows, kept, tmap)
    decreases |kept|
  {
    if kept == [] then SubRows({}, map[], map[], map[])
    else
      var p := kept[..|kept| - 1];
      var pid := kept[|kept| - 1].providerId;
      AddSubRows(SubRowsOf(rows, p, tmap, tags), rows[pid].id, tmap[pid], tags)
  }

  /** The four follow-up statements: links `ON CONFLICT DO NOTHING`, the
      detail rows `ON CONFLICT (transaction_id) DO UPDATE`. A statement with
      no rows is not sent, which leaves the same tables. */
  function ApplySubRows(s: Store, sub: SubRows): Store
  {
    s.(transactionTags := s.transactionTags + sub.links,
       holdInfo := s.holdInfo + sub.holdInfo,
       roundUps := s.roundUps + sub.roundUps,
       cashbacks := s.cashbacks + sub.cashbacks)
  }

  // ---------------------------------------------------------------------
  // One page

  /** `ProcessTransactionsMetrics` without the timings. */
  datatype Metrics = Metrics(pagesProcessed: nat, total: nat, processed: nat, skipped: nat,
                             missingAccounts: set<string>, missingCategories: set<string>)

  function NewMetrics(): Metrics { Metrics(0, 0, 0, 0, {}, {}) }

  /** The store and the metrics the page callbacks share. */
  datatype Ingest = Ingest(store: Store, metrics: Metrics)

  lemma KeptReturned(s: Store, kept: seq<Proposed>, txs: seq<TransactionResource>)
    requires forall j :: 0 <= j < |kept| ==> kept[j].providerId in TxIdsOf(txs)
    ensures Returned(UpsertAll(s.transactions, kept, ProposedKey, ProposedRow, RefreshedRow).rows, kept, TxMap(txs))
  {
    UpsertAllFrame(s.transactions, kept, ProposedKey, ProposedRow, RefreshedRow);
    forall i | 0 <= i < |kept| ensures kept[i].providerId in BatchKeys(kept, ProposedKey) {
      assert ProposedKey(kept[i]) == kept[i].providerId;
    }
  }

  /** The page's metrics before the statement runs: `total` and `skipped`
      grow and the missing accounts and categories are recorded. */
  function Counted(m: Metrics, total: nat, kept: nat, missingAccounts: set<string>, missingCategories: set<CategoryId>): Metrics
    requires kept <= total
  {
    m.(total := m.total + total, skipped := m.skipped + (total - kept),
       missingAccounts := m.missingAccounts + missingAccounts,
       missingCategories := m.missingCategories + missingCategories)
  }

  /** `upsertTransactions(transactions, page, metrics, processName)` at
      time `now`. The totals are counted before the statement, so a
      refused statement leaves them counted. */
  function UpsertTransactionsPage(st: Ingest, txs: seq<TransactionResource>, now: Time, processName: string): Run<Ingest>
  {
    var snap := SnapshotOf(st.store);
    var kept := KeptOf(snap, txs, now, processName);
    var m := Counted(st.metrics, |txs|, |kept|, MissingAccountsOf(snap, txs, now, processName), MissingCategoriesOf(snap, txs, now, processName));
    if kept == [] then Done(Ingest(st.store, m.(pagesProcessed := m.pagesProcessed + 1)))
    else CommitPage(st.store, m, kept, txs, snap.tags)
  }

  /** The statements of a page with something to write: the upsert, then
      the follow-up inserts for the returned rows. */
  function CommitPage(s: Store, m: Metrics, kept: seq<Proposed>, txs: seq<TransactionResource>, tags: set<TagId>): Run<Ingest>
    requires forall j :: 0 <= j < |kept| ==> kept[j].providerId in TxIdsOf(txs)
  {
    var u := UpsertTransactionRows(s, kept);
    if u.Err? then Failed(Ingest(s, m), u.error)
    else
      KeptReturned(s, kept, txs);
      var sub := SubRowsOf(u.value.transactions.rows, kept, TxMap(txs), tags);
      Done(Ingest(ApplySubRows(u.value, sub), m.(processed := m.processed + |kept|, pagesProcessed := m.pagesProcessed + 1)))
  }

  /** `transactions.map(remap).filter(…)`, with the misses recorded. */
  method RemapPage(snap: Snapshot, txs: seq<TransactionResource>, now: Time, processName: string)
    returns (kept: seq<Proposed>, missingAccounts: set<string>, missingCategories: set<string>)
    ensures kept == KeptOf(snap, txs, now, processName)
    ensures missingAccounts == MissingAccountsOf(snap, txs, now, processName)
    ensures missingCategories == MissingCategoriesOf(snap, txs, now, processName)
  {
    kept, missingAccounts, missingCategories := [], {}, {};
    var i := 0;
    while i < |txs|
      invariant 0 <= i <= |txs|
      invariant kept == KeptOf(snap, txs[..i], now, processName)
      invariant missingAccounts == MissingAccountsOf(snap, txs[..i], now, processName)
      invariant missingCategories == MissingCategoriesOf(snap, txs[..i], now, processName)
    {
      assert txs[..i + 1][..i] == txs[..i];
      var rm := Remap(snap, txs[i], now, processName);
      match rm {
        case Skipped(account) =>
          missingAccounts := missingAccounts + {account};
        case Kept(p, missing) =>
          kept := kept + [p];
          if missing.Some? {
            missingCategories := missingCategories + {missing.value};
          }
      }
      i := i + 1;
    }
    assert txs[..i] == txs;
  }

  /** The links pushed for one returned row. */
  method CollectLinks(id: nat, tagIds: seq<TagId>, tags: set<TagId>) returns (links: set<(nat, TagId)>)
    ensures links == LinkRows(id, tagIds, tags)
  {
    links := {};
    var k := 0;
    while k < |tagIds|
      invariant 0 <= k <= |tagIds|
      invariant links == LinkRows(id, tagIds[..k], tags)
    {
      assert tagIds[..k + 1][..k] == tagIds[..k];
      if tagIds[k] in tags {
        links := links + {(id, tagIds[k])};
      }
      k := k + 1;
    }
    assert tagIds[..k] == tagIds;
  }

  /** The loop over the returned `{ id, provider_id }` rows. The resource
      of a returned row is always found, so the rollback branch is never
      taken. */
  method CollectSubRows(rows: map<string, Keyed<TransactionRow>>, kept: seq<Proposed>,
                        tmap: map<string, TransactionResource>, tags: set<TagId>) returns (sub: SubRows)
    requires Returned(rows, kept, tmap)
    ensures sub == SubRowsOf(rows, kept, tmap, tags)
  {
    sub := SubRows({}, map[], map[], map[]);
    var j := 0;
    while j < |kept|
      invariant 0 <= j <= |kept|
      invariant sub == SubRowsOf(rows, kept[..j], tmap, tags)
    {
      assert kept[..j + 1][..j] == kept[..j];
      var pid := kept[j].providerId;
      var id := rows[pid].id;
      var t := tmap[pid];
      var links := CollectLinks(id, TagsOf(t), tags);
      sub := sub.(links := sub.links + links);
      var a := t.attributes;
      if a.holdInfo.Some? {
        sub := sub.(holdInfo := sub.holdInfo[id := HoldInfoRowOf(a.holdInfo.value)]);
      }
      if a.roundUp.Some? {
        sub := sub.(roundUps := sub.roundUps[id := RoundUpRowOf(a.roundUp.value)]);
      }
      if a.cashback.Some? {
        sub := sub.(cashbacks := sub.cashbacks[id := CashbackRowOf(a.cashback.value)]);
      }
      j := j + 1;
    }
    assert kept[..j] == kept;
  }

  /** The loop over the returned rows and the statements it feeds; a
      statement with no rows is not sent. */
  method FanOut(s1: Store, kept: seq<Proposed>, tmap: map<string, TransactionResource>, tags: set<TagId>)
    returns (store: Store)
    requires Returned(s1.transactions.rows, kept, tmap)
    ensures store == ApplySubRows(s1, SubRowsOf(s1.transactions.rows, kept, tmap, tags))
  {
    var sub := CollectSubRows(s1.transactions.rows, kept, tmap, tags);
    var links := s1.transactionTags;
    if sub.links != {} {
      links := links + sub.links;
    }
    var holdInfo := s1.holdInfo;
    if sub.holdInfo != map[] {
      holdInfo := holdInfo + sub.holdInfo;
    }
    var roundUps := s1.roundUps;
    if sub.roundUps != map[] {
      roundUps := roundUps + sub.roundUps;
    }
    var cashbacks := s1.cashbacks;
    if sub.cashbacks != map[] {
      cashbacks := cashbacks + sub.cashbacks;
    }
    assert holdInfo == s1.holdInfo + sub.holdInfo;
    assert roundUps == s1.roundUps + sub.roundUps;
    assert cashbacks == s1.cashbacks + sub.cashbacks;
    store := s1.(transactionTags := links, holdInfo := holdInfo, roundUps := roundUps, cashbacks := cashbacks);
  }

  /** `upsertTransactions`: the remap-and-filter loop, the upsert, the loop
      over the returned rows, and the follow-up statements. */
  method UpsertTransactions(st: Ingest, txs: seq<TransactionResource>, now: Time, processName: string)
    returns (r: Run<Ingest>)
    ensures r == UpsertTransactionsPage(st, txs, now, processName)
  {
    var snap := SnapshotOf(st.store);
    var tmap := TxMap(txs);
    var kept, missingAccounts, missingCategories := RemapPage(snap, txs, now, processName);
    var m := Counted(st.metrics, |txs|, |kept|, missingAccounts, missingCategories);
    if kept == [] {
      return Done(Ingest(st.store, m.(pagesProcessed := m.pagesProcessed + 1)));
    }
    r := Commit(st.store, m, kept, txs, tmap, snap.tags);
  }

  /** The upsert statement and the fan-out over the rows it returns. */
  method Commit(s: Store, m: Metrics, kept: seq<Proposed>, txs: seq<TransactionResource>,
                tmap: map<string, TransactionResource>, tags: set<TagId>) returns (r: Run<Ingest>)
    requires forall j :: 0 <= j < |kept| ==> kept[j].providerId in TxIdsOf(txs)
    requires tmap == TxMap(txs)
    ensures r == CommitPage(s, m, kept, txs, tags)
  {
    var u := UpsertTransactionRows(s, kept);
    if u.Err? {
      return Failed(Ingest(s, m), u.error);
    }
    KeptReturned(s, kept, txs);
    var store := FanOut(u.value, kept, tmap, tags);
    r := Done(Ingest(store, m.(processed := m.processed + |kept|, pagesProcessed := m.pagesProcessed + 1)));
  }

  // ---------------------------------------------------------------------
  // The entry points

  const ProcessAllName := "processTransactions"
  const ProcessOneName := "processTransaction"
  /** The body of a single-transaction response did not parse, or had no
      `data`: destructuring it throws. */
  const NoTransactionData := "TypeError: transaction data is undefined"

  /** `deleteTransaction`: a soft delete that stamps `deleted_at` and
      `updated_by`; `updated_at` is left alone. */
  function DeleteTransaction(s: Store, providerId: string, now: Time, processName: string): Store
  {
    if providerId !in s.transactions.rows then s
    else
      var k := s.transactions.rows[providerId];
      s.(transactions := s.transactions.(rows := s.transactions.rows[providerId :=
           Keyed(k.id, k.row.(deletedAt := Some(now), updatedBy := Some(processName)))]))
  }

  /** The page callback `processTransactions` hands to the walk;
      `clock(page)` is the time at which that page is written. */
  function OnTransactionsPage(clock: int -> Time): (Ingest, seq<TransactionResource>, int) -> Run<Ingest>
  {
    (st: Ingest, txs: seq<TransactionResource>, page: int) => UpsertTransactionsPage(st, txs, clock(page), ProcessAllName)
  }

  /** `processTransactions`: an exhausted rate limit on the first response
      throws before anything is written; otherwise the walk, whose failure
      is rethrown. */
  method ProcessTransactions(s: Store, firstRateLimit: Option<string>, listing: Listing<TransactionResource>, clock: int -> Time)
    returns (r: Run<Ingest>)
    ensures RateLimitExhausted(firstRateLimit) ==> r == Failed(Ingest(s, NewMetrics()), RateLimitExceeded)
    ensures !RateLimitExhausted(firstRateLimit) ==> r == ListingWalk(Ingest(s, NewMetrics()), listing, OnTransactionsPage(clock)).run
  {
    if RateLimitExhausted(firstRateLimit) {
      return Failed(Ingest(s, NewMetrics()), RateLimitExceeded);
    }
    var w := WalkListing(Ingest(s, NewMetrics()), listing, OnTransactionsPage(clock));
    r := w.run;
  }

  datatype Operation = InsertOperation | DeleteOperation

  /** The response of `fetchFromUp(transactionUrl)`: its `ok` flag,
      whether it has a body, and the body's `data` (`None` when the body
      does not parse or has none). */
  datatype Fetched = Fetched(ok: bool, hasBody: bool, data: Option<TransactionResource>)

  /** `processTransaction(url, operation)`: a failed fetch only raises an
      alert; otherwise the transaction is upserted as a page of one, or
      soft-deleted, and any error is rethrown. */
  method ProcessTransaction(s: Store, res: Fetched, operation: Operation, now: Time) returns (r: Run<Store>)
    ensures !(res.ok && res.hasBody) ==> r == Done(s)
    ensures res.ok && res.hasBody && res.data.None? ==> r == Failed(s, NoTransactionData)
    ensures res.ok && res.hasBody && res.data.Some? && operation.DeleteOperation? ==>
      r == Done(DeleteTransaction(s, res.data.value.id, now, ProcessOneName))
    ensures res.ok && res.hasBody && res.data.Some? && operation.InsertOperation? ==>
      var page := UpsertTransactionsPage(Ingest(s, NewMetrics()), [res.data.value], now, ProcessOneName);
      r == (if page.Done? then Done(page.state.store) else Failed(page.state.store, page.reason))
  {
    if !(res.ok && res.hasBody) {
      return Done(s);
    }
    if res.data.None? {
      return Failed(s, NoTransactionData);
    }
    match operation {
      case InsertOperation =>
        var page := UpsertTransactions(Ingest(s, NewMetrics()), [res.data.value], now, ProcessOneName);
        r := if page.Done? then Done(page.state.store) else Failed(page.state.store, page.reason);
      case DeleteOperation =>
        r := Done(DeleteTransaction(s, res.data.value.id, now, ProcessOneName));
    }
  }
}

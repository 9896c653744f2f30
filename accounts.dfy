/** `processAccounts`: every page of `/accounts` is upserted into `account`
    by provider id; errors are logged and swallowed. */
module Accounts {
  import opened Wrappers
  import opened Upsert
  import opened Schema
  import opened Fetch

  const ProcessName := "processAccounts"

  /** The parts of an Up `AccountResource` the remap reads. */
  datatype AccountResource = AccountResource(id: string, accountType: string, ownershipType: string,
                                             displayName: string, balance: Money, createdAt: Time)

  function Details(a: AccountResource): AccountDetails
  {
    AccountDetails(a.accountType, a.ownershipType, a.displayName, a.balance)
  }

  function ProviderId(a: AccountResource): string
  {
    a.id
  }

  /** The row `remap` proposes. */
  function NewAccountRow(a: AccountResource, now: Time): AccountRow
  {
    AccountRow(Details(a), a.createdAt, Some(now), Some(ProcessName), None)
  }

  /** The `ON CONFLICT DO UPDATE SET` of an existing row: the details,
      `updated_at` and `updated_by`; `created_at` and `deleted_at` stay. */
  function RefreshedAccountRow(row: AccountRow, a: AccountResource, now: Time): AccountRow
  {
    row.(details := Details(a), updatedAt := Some(now), updatedBy := Some(ProcessName))
  }

  /** `upsertAccounts(accounts, page)` at time `now`. */
  function UpsertAccounts(s: Store, accounts: seq<AccountResource>, now: Time): Run<Store>
  {
    var r := UpsertRows(s.accounts, accounts, ProviderId, a => NewAccountRow(a, now), (row, a) => RefreshedAccountRow(row, a, now));
    if r.Ok? then Done(s.(accounts := r.value)) else Failed(s, r.error)
  }

  /** The page callback; `clock(page)` is the time at which that page is
      written. */
  function OnAccountsPage(clock: int -> Time): (Store, seq<AccountResource>, int) -> Run<Store>
  {
    (s: Store, accounts: seq<AccountResource>, page: int) => UpsertAccounts(s, accounts, clock(page))
  }

  /** `processAccounts`: the walk of the listing; whatever fails, the
      process returns normally with what was committed so far. */
  method ProcessAccounts(s: Store, listing: Listing<AccountResource>, clock: int -> Time) returns (r: Store)
    ensures r == ListingWalk(s, listing, OnAccountsPage(clock)).run.state
  {
    var w := WalkListing(s, listing, OnAccountsPage(clock));
    r := w.run.state;
  }

  // ---------------------------------------------------------------------
  // Properties

  /** A page is refused as a whole when it is empty or repeats an id;
      otherwise every account on it is in `account` with its details and
      this process's stamp, an existing row keeps its id, `created_at` and
      `deleted_at`, a new one gets the creation time from the API, and no
      other row or table changes. */
  lemma UpsertAccountsEffect(s: Store, accounts: seq<AccountResource>, now: Time)
    ensures UpsertAccounts(s, accounts, now).Done? <==> accounts != [] && DistinctKeys(accounts, ProviderId)
    ensures UpsertAccounts(s, accounts, now).Failed? ==> UpsertAccounts(s, accounts, now).state == s
    ensures UpsertAccounts(s, accounts, now).Done? ==>
      var r := UpsertAccounts(s, accounts, now).state;
      && r.(accounts := s.accounts) == s
      && r.accounts.rows.Keys == s.accounts.rows.Keys + BatchKeys(accounts, ProviderId)
      && (forall k :: k in s.accounts.rows && k !in BatchKeys(accounts, ProviderId) ==> r.accounts.rows[k] == s.accounts.rows[k])
      && (forall i :: 0 <= i < |accounts| ==>
            var k := accounts[i].id;
            && k in r.accounts.rows
            && r.accounts.rows[k].row.details == Details(accounts[i])
            && r.accounts.rows[k].row.updatedAt == Some(now)
            && r.accounts.rows[k].row.updatedBy == Some(ProcessName)
            && (k in s.accounts.rows ==>
                  && r.accounts.rows[k].id == s.accounts.rows[k].id
                  && r.accounts.rows[k].row.createdAt == s.accounts.rows[k].row.createdAt
                  && r.accounts.rows[k].row.deletedAt == s.accounts.rows[k].row.deletedAt)
            && (k !in s.accounts.rows ==> r.accounts.rows[k].row == NewAccountRow(accounts[i], now)))
  {
    if accounts != [] && DistinctKeys(accounts, ProviderId) {
      var ins := a => NewAccountRow(a, now);
      var upd := (row, a) => RefreshedAccountRow(row, a, now);
      UpsertAllFrame(s.accounts, accounts, ProviderId, ins, upd);
      forall i | 0 <= i < |accounts| {
        UpsertAccountRow(s, accounts, now, i);
      }
    }
  }

  /** The row of one account of a committed page. */
  lemma UpsertAccountRow(s: Store, accounts: seq<AccountResource>, now: Time, i: nat)
    requires accounts != [] && DistinctKeys(accounts, ProviderId) && i < |accounts|
    ensures var r := UpsertAccounts(s, accounts, now).state;
      var k := accounts[i].id;
      && k in r.accounts.rows
      && r.accounts.rows[k].row.details == Details(accounts[i])
      && r.accounts.rows[k].row.updatedAt == Some(now)
      && r.accounts.rows[k].row.updatedBy == Some(ProcessName)
      && (k in s.accounts.rows ==>
            && r.accounts.rows[k].id == s.accounts.rows[k].id
            && r.accounts.rows[k].row.createdAt == s.accounts.rows[k].row.createdAt
            && r.accounts.rows[k].row.deletedAt == s.accounts.rows[k].row.deletedAt)
      && (k !in s.accounts.rows ==> r.accounts.rows[k].row == NewAccountRow(accounts[i], now))
  {
    var ins := a => NewAccountRow(a, now);
    var upd := (row, a) => RefreshedAccountRow(row, a, now);
    UpsertAllAt(s.accounts, accounts, ProviderId, ins, upd, i);
  }

  /** Upserting accounts keeps the store valid. */
  lemma UpsertAccountsValid(s: Store, accounts: seq<AccountResource>, now: Time)
    requires Valid(s)
    ensures Valid(UpsertAccounts(s, accounts, now).state)
  {
    if accounts != [] && DistinctKeys(accounts, ProviderId) {
      var ins := a => NewAccountRow(a, now);
      var upd := (row, a) => RefreshedAccountRow(row, a, now);
      var r := UpsertAccounts(s, accounts, now).state;
      UpsertAllWellFormed(s.accounts, accounts, ProviderId, ins, upd);
      UpsertAllKeepsIds(s.accounts, accounts, ProviderId, ins, upd);
      assert AccountIds(s) <= AccountIds(r);
      assert TransactionIds(r) == TransactionIds(s);
    }
  }

  /** Writing the same page again, at any later time `later`, leaves the
      same account rows as writing it once at `later`: each row ends with
      that run's stamp, and nothing else differs. At the same time it
      changes no row. Only the identity sequence moves on. */
  lemma UpsertAccountsIdempotent(s: Store, accounts: seq<AccountResource>, now: Time, later: Time)
    requires UpsertAccounts(s, accounts, now).Done?
    ensures var once := UpsertAccounts(s, accounts, now).state;
      var single := UpsertAccounts(s, accounts, later);
      && UpsertAccounts(once, accounts, later).Done? && single.Done?
      && UpsertAccounts(once, accounts, later).state.accounts.rows == single.state.accounts.rows
      && UpsertAccounts(once, accounts, later).state.(accounts := once.accounts) == once
    ensures var once := UpsertAccounts(s, accounts, now).state;
      UpsertAccounts(once, accounts, now).state.accounts.rows == once.accounts.rows
  {
    UpsertAccountsReplay(s, accounts, now, later);
    UpsertAccountsReplay(s, accounts, now, now);
  }

  lemma UpsertAccountsReplay(s: Store, accounts: seq<AccountResource>, now: Time, later: Time)
    requires accounts != [] && DistinctKeys(accounts, ProviderId)
    ensures UpsertAll(UpsertAll(s.accounts, accounts, ProviderId, a => NewAccountRow(a, now), (row, a) => RefreshedAccountRow(row, a, now)),
                      accounts, ProviderId, a => NewAccountRow(a, later), (row, a) => RefreshedAccountRow(row, a, later)).rows
         == UpsertAll(s.accounts, accounts, ProviderId, a => NewAccountRow(a, later), (row, a) => RefreshedAccountRow(row, a, later)).rows
  {
    var ins1 := a => NewAccountRow(a, now);
    var upd1 := (row, a) => RefreshedAccountRow(row, a, now);
    var ins2 := a => NewAccountRow(a, later);
    var upd2 := (row, a) => RefreshedAccountRow(row, a, later);
    UpsertAllReplay(s.accounts, ProviderId, accounts, ins1, upd1, accounts, ins2, upd2);
  }

  /** The account rows present before, with their ids. */
  ghost predicate KeepsAccounts(before: Store, after: Store)
  {
    forall k :: k in before.accounts.rows ==> k in after.accounts.rows && after.accounts.rows[k].id == before.accounts.rows[k].id
  }

  /** `processAccounts` never deletes an account nor renumbers one, and
      leaves every other table as it was. */
  lemma ProcessAccountsKeeps(s: Store, listing: Listing<AccountResource>, clock: int -> Time)
    ensures var r := ListingWalk(s, listing, OnAccountsPage(clock)).run.state;
      KeepsAccounts(s, r) && r.(accounts := s.accounts) == s
  {
    var P := (st: Store) => KeepsAccounts(s, st) && st.(accounts := s.accounts) == s;
    forall st, items, p | P(st) ensures P(OnAccountsPage(clock)(st, items, p).state) {
      var now := clock(p);
      if items != [] && DistinctKeys(items, ProviderId) {
        UpsertAllKeepsIds(st.accounts, items, ProviderId, a => NewAccountRow(a, now), (row, a) => RefreshedAccountRow(row, a, now));
      }
    }
    ListingPreserves(s, listing, OnAccountsPage(clock), P);
  }

  /** `processAccounts` keeps the store valid. */
  lemma ProcessAccountsValid(s: Store, listing: Listing<AccountResource>, clock: int -> Time)
    requires Valid(s)
    ensures Valid(ListingWalk(s, listing, OnAccountsPage(clock)).run.state)
  {
    forall st, items, p | Valid(st) ensures Valid(OnAccountsPage(clock)(st, items, p).state) {
      UpsertAccountsValid(st, items, clock(p));
    }
    ListingPreserves(s, listing, OnAccountsPage(clock), Valid);
  }
}

/** `syncData`: after `processTags`, every tag and every child category
    the provider lists is reconciled with the links and categories stored
    for it, through `compareProviderAndDb`. */
module Sync {
  import opened Wrappers
  import opened Upsert
  import opened Schema
  import opened Fetch
  import opened Compare
  import opened Queries
  import opened Transactions
  import Tags

  /** A listed `{ type, id }`; `hasParent` is whether a category's
      `relationships.parent.data` is not null. */
  datatype Listed = Listed(kind: string, id: string, hasParent: bool)

  const TagsKind := "tags"
  const CategoriesKind := "categories"

  // ---------------------------------------------------------------------
  // The provider's ids for one filter

  function IdsOf(txs: seq<TransactionResource>): (r: seq<string>)
    ensures |r| == |txs| && forall i :: 0 <= i < |txs| ==> r[i] == txs[i].id
  {
    seq(|txs|, i requires 0 <= i < |txs| => txs[i].id)
  }

  /** The page callback: `externalTransactionIds.push(...ids)`. */
  function CollectIds(ids: seq<string>, txs: seq<TransactionResource>, page: int): Run<seq<string>>
  {
    Done(ids + IdsOf(txs))
  }

  /** The ids of every page the walk handed over, in order. */
  function PageIds(calls: seq<PageCall<TransactionResource>>): seq<string>
    decreases |calls|
  {
    if calls == [] then [] else IdsOf(calls[0].items) + PageIds(calls[1..])
  }

  /** `GET /transactions?filter[…]`, then `getNextPage(links.next, …, 2)`.
      A first request that fails leaves no ids (and nothing to walk); a
      failed later page throws. */
  function RemoteIds(remote: Listing<TransactionResource>): Run<seq<string>>
  {
    ListingWalk([], remote, CollectIds).run
  }

  lemma {:induction false} ReplayCollects(ids: seq<string>, calls: seq<PageCall<TransactionResource>>)
    ensures Replay(ids, calls, CollectIds) == Done(ids + PageIds(calls))
    decreases |calls|
  {
    if calls != [] {
      var next := ids + IdsOf(calls[0].items);
      assert CollectIds(ids, calls[0].items, calls[0].page) == Done(next);
      assert Replay(ids, calls, CollectIds) == Replay(next, calls[1..], CollectIds);
      ReplayCollects(next, calls[1..]);
      assert next + PageIds(calls[1..]) == ids + PageIds(calls);
    } else {
      assert ids + [] == ids;
    }
  }

  /** A walk that completes has collected exactly the ids of the pages it
      handed to the callback, page after page; one that fails aborts the
      sync of its filter. */
  lemma RemoteIdsArePages(remote: Listing<TransactionResource>)
    ensures RemoteIds(remote).Done? ==> RemoteIds(remote).state == PageIds(ListingWalk([], remote, CollectIds).calls)
  {
    var w := ListingWalk([], remote, CollectIds);
    if remote.first.Some? {
      WalkIsReplay([], ListingChain(remote), CollectIds, 1);
    }
    ReplayCollects([], w.calls);
  }

  // ---------------------------------------------------------------------
  // updateTransaction

  /** `updateTransaction(providerId, updateFn)`: an unknown provider id
      only raises an alert, and the promise still fulfils. */
  function UpdateTransaction(s: Store, providerId: string, update: (Store, nat) -> Result<Store>): (r: Result<Store>)
    ensures providerId !in s.transactions.rows ==> r == Ok(s)
    ensures providerId in s.transactions.rows ==> r == update(s, s.transactions.rows[providerId].id)
  {
    match GetTransactionByProviderId(s, providerId)
    case None => Ok(s)
    case Some(id) => update(s, id)
  }

  /** The provider ids of a query's `{ id, providerId }` rows. */
  function ProviderIds(pairs: set<IdPair>): set<string>
  {
    set p | p in pairs :: p.providerId
  }

  // ---------------------------------------------------------------------
  // Tags

  function LinkTag(tag: TagId): (Store, string) -> Result<Store>
  {
    (s: Store, pid: string) => UpdateTransaction(s, pid, (st: Store, id: nat) => UpdateTransactionTag(st, id, tag))
  }

  function UnlinkTag(tag: TagId): (Store, string) -> Result<Store>
  {
    (s: Store, pid: string) => UpdateTransaction(s, pid, (st: Store, id: nat) => Ok(DeleteTransactionTag(st, id, tag)))
  }

  /** Only links to `tag` differ between the two stores. */
  ghost predicate LinksOnlyTo(s: Store, r: Store, tag: TagId)
  {
    && r.(transactionTags := s.transactionTags) == s
    && (forall id: nat, t: TagId :: t != tag ==> ((id, t) in r.transactionTags <==> (id, t) in s.transactionTags))
  }

  lemma TaggedQuery(s: Store, tag: TagId)
    ensures ProviderIds(GetTransactionsByTag(s, tag)) == TaggedWith(s, tag)
  {
    forall k | k in TaggedWith(s, tag) ensures k in ProviderIds(GetTransactionsByTag(s, tag)) {
      assert IdPair(s.transactions.rows[k].id, k) in GetTransactionsByTag(s, tag);
    }
  }

  /** The state a settled callback leaves: its result, or the state it
      was given when it is rejected. */
  function After(s: Store, r: Result<Store>): Store
  {
    if r.Ok? then r.value else s
  }

  lemma LinksOnlyToTrans(s: Store, q: Store, r: Store, tag: TagId)
    requires LinksOnlyTo(s, q, tag) && LinksOnlyTo(q, r, tag)
    ensures LinksOnlyTo(s, r, tag)
  {
  }

  /** One link callback is the link insert of the listed transaction, or
      nothing when it is not stored or the insert is refused. */
  lemma LinkCallback(q: Store, tag: TagId, x: string)
    ensures x !in q.transactions.rows ==> After(q, LinkTag(tag)(q, x)) == q
    ensures x in q.transactions.rows ==>
      After(q, LinkTag(tag)(q, x)) == After(q, UpdateTransactionTag(q, q.transactions.rows[x].id, tag))
  {
    if x in q.transactions.rows {
      assert LinkTag(tag)(q, x) == UpdateTransactionTag(q, q.transactions.rows[x].id, tag);
    } else {
      assert LinkTag(tag)(q, x) == Ok(q);
    }
  }

  /** The insert of a stored transaction's link adds it to the tagged set,
      or finds it there already. */
  lemma LinkInsertTagged(q: Store, tag: TagId, x: string)
    requires Valid(q) && tag in q.tags && x in q.transactions.rows
    ensures TaggedWith(After(q, UpdateTransactionTag(q, q.transactions.rows[x].id, tag)), tag) == TaggedWith(q, tag) + {x}
  {
    var id := q.transactions.rows[x].id;
    assert id in TransactionIds(q);
    if UpdateTransactionTag(q, id, tag).Ok? {
      var q2 := UpdateTransactionTag(q, id, tag).value;
      forall k ensures k in TaggedWith(q2, tag) <==> k in TaggedWith(q, tag) + {x} {
        if k in q.transactions.rows && q.transactions.rows[k].id == id {
          assert k == x;
        }
      }
    } else {
      assert x in TaggedWith(q, tag);
    }
  }

  lemma LinkStep(q: Store, tag: TagId, x: string)
    requires Valid(q) && tag in q.tags
    ensures var r := After(q, LinkTag(tag)(q, x));
      && Valid(r) && LinksOnlyTo(q, r, tag)
      && TaggedWith(r, tag) == TaggedWith(q, tag) + ({x} * q.transactions.rows.Keys)
  {
    LinkCallback(q, tag, x);
    var r := After(q, LinkTag(tag)(q, x));
    if x in q.transactions.rows {
      var id := q.transactions.rows[x].id;
      var u := UpdateTransactionTag(q, id, tag);
      TagLinkValid(q, id, tag);
      LinkInsertTagged(q, tag, x);
      assert {x} * q.transactions.rows.Keys == {x};
      if u.Ok? {
        LinkAddsOnly(q, u.value, id, tag);
      } else {
        assert r == q;
      }
    } else {
      assert r == q;
      assert {x} * q.transactions.rows.Keys == {};
    }
  }

  /** Adding one link to `tag` changes no other tag's links. */
  lemma LinkAddsOnly(q: Store, r: Store, id: nat, tag: TagId)
    requires r == q.(transactionTags := q.transactionTags + {(id, tag)})
    ensures LinksOnlyTo(q, r, tag)
  {
  }

  lemma UnlinkStep(q: Store, tag: TagId, x: string)
    requires Valid(q)
    ensures var r := After(q, UnlinkTag(tag)(q, x));
      && Valid(r) && LinksOnlyTo(q, r, tag)
      && TaggedWith(r, tag) == TaggedWith(q, tag) - {x}
  {
    if x in q.transactions.rows {
      var id := q.transactions.rows[x].id;
      TagLinkValid(q, id, tag);
      var q2 := DeleteTransactionTag(q, id, tag);
      assert TaggedWith(q2, tag) == TaggedWith(q, tag) - {x};
    }
  }

  lemma SetOfSnoc<T(!new)>(items: seq<T>)
    requires items != []
    ensures SetOf(items) == SetOf(items[..|items| - 1]) + {items[|items| - 1]}
  {
    var p := items[..|items| - 1];
    assert forall i :: 0 <= i < |p| ==> p[i] == items[i];
    assert items == p + [items[|items| - 1]];
  }

  /** The insert callbacks settled in turn: each listed transaction that is
      stored ends up linked, whether it was linked before or not. */
  lemma {:induction false} SettleLinks(s: Store, tag: TagId, items: seq<string>)
    requires Valid(s) && tag in s.tags
    ensures var r := Settle(s, items, LinkTag(tag)).state;
      && Valid(r) && LinksOnlyTo(s, r, tag)
      && TaggedWith(r, tag) == TaggedWith(s, tag) + (SetOf(items) * s.transactions.rows.Keys)
    decreases |items|
  {
    if items != [] {
      var p := items[..|items| - 1];
      var x := items[|items| - 1];
      SettleLinks(s, tag, p);
      var q := Settle(s, p, LinkTag(tag)).state;
      LinkStep(q, tag, x);
      assert Settle(s, items, LinkTag(tag)).state == After(q, LinkTag(tag)(q, x));
      LinksOnlyToTrans(s, q, After(q, LinkTag(tag)(q, x)), tag);
      SetOfSnoc(items);
    }
  }

  /** The delete callbacks settled in turn: each listed transaction ends
      up unlinked. */
  lemma {:induction false} SettleUnlinks(s: Store, tag: TagId, items: seq<string>)
    requires Valid(s)
    ensures var r := Settle(s, items, UnlinkTag(tag)).state;
      && Valid(r) && LinksOnlyTo(s, r, tag)
      && TaggedWith(r, tag) == TaggedWith(s, tag) - SetOf(items)
    decreases |items|
  {
    if items != [] {
      var p := items[..|items| - 1];
      var x := items[|items| - 1];
      SettleUnlinks(s, tag, p);
      var q := Settle(s, p, UnlinkTag(tag)).state;
      UnlinkStep(q, tag, x);
      assert Settle(s, items, UnlinkTag(tag)).state == After(q, UnlinkTag(tag)(q, x));
      LinksOnlyToTrans(s, q, After(q, UnlinkTag(tag)(q, x)), tag);
      SetOfSnoc(items);
    }
  }

  /** Adding the listed-but-missing members that exist, then removing the
      unlisted ones, leaves exactly the listed ones that exist. */
  lemma Reconciled<T>(before: set<T>, listed: set<T>, existing: set<T>)
    requires before <= existing
    ensures (before + ((listed - before) * existing)) - (before - listed) == listed * existing
  {
  }

  /** The inserts settled, then the deletes. */
  lemma LinkThenUnlink(s: Store, tag: TagId, ins: seq<string>, del: seq<string>)
    requires Valid(s) && tag in s.tags
    ensures var r := Settle(Settle(s, ins, LinkTag(tag)).state, del, UnlinkTag(tag)).state;
      && Valid(r) && LinksOnlyTo(s, r, tag)
      && TaggedWith(r, tag) == (TaggedWith(s, tag) + (SetOf(ins) * s.transactions.rows.Keys)) - SetOf(del)
  {
    SettleLinks(s, tag, ins);
    var mid := Settle(s, ins, LinkTag(tag)).state;
    SettleUnlinks(mid, tag, del);
    LinksOnlyToTrans(s, mid, Settle(mid, del, UnlinkTag(tag)).state, tag);
  }

  /** Reconciling one tag leaves it linked to exactly the stored
      transactions the provider lists under it, and changes no other link
      and no other table. */
  lemma ReconcileTag(s: Store, tag: TagId, ids: seq<string>, db: seq<string>)
    requires Valid(s) && tag in s.tags && SetOf(db) == TaggedWith(s, tag)
    ensures var r := Reconcile(s, ids, db, LinkTag(tag), UnlinkTag(tag)).state;
      && Valid(r) && LinksOnlyTo(s, r, tag)
      && TaggedWith(r, tag) == SetOf(ids) * s.transactions.rows.Keys
  {
    if ids != [] || db != [] {
      var toInsert := Difference(ids, db);
      var toDelete := Difference(db, ids);
      LinkThenUnlink(s, tag, toInsert, toDelete);
      assert SetOf(toInsert) == SetOf(ids) - SetOf(db);
      assert SetOf(toDelete) == SetOf(db) - SetOf(ids);
      Reconciled(TaggedWith(s, tag), SetOf(ids), s.transactions.rows.Keys);
    }
  }

  /** One tag of `syncTaggedTransactions`. A wrong `type`, a tag that is
      not stored, or a later page that fails ends its sync with an alert
      and no change; otherwise the provider's ids are reconciled with the
      stored links, in whatever order the link query returns them. */
  method SyncTag(s: Store, item: Listed, remote: Listing<TransactionResource>) returns (r: Store)
    ensures item.kind != TagsKind || item.id !in s.tags || RemoteIds(remote).Failed? ==> r == s
    ensures Valid(s) ==> Valid(r) && LinksOnlyTo(s, r, item.id)
    ensures Valid(s) && item.kind == TagsKind && item.id in s.tags && RemoteIds(remote).Done? ==>
      TaggedWith(r, item.id) == SetOf(RemoteIds(remote).state) * s.transactions.rows.Keys
  {
    if item.kind != TagsKind || item.id !in s.tags {
      return s;
    }
    var tag := item.id;
    var w := WalkListing([], remote, CollectIds);
    if w.run.Failed? {
      return s;
    }
    var db := Enumerate(ProviderIds(GetTransactionsByTag(s, tag)));
    var c := CompareProviderAndDb(s, w.run.state, db, LinkTag(tag), UnlinkTag(tag));
    r := c.state;
    if Valid(s) {
      TaggedQuery(s, tag);
      assert SetOf(db) == TaggedWith(s, tag);
      ReconcileTag(s, tag, w.run.state, db);
    }
  }

  /** The tags that a run over `items` reconciles. */
  function SyncedTags(s: Store, items: seq<Listed>, remoteOf: TagId -> Listing<TransactionResource>): set<TagId>
  {
    set i | 0 <= i < |items| && items[i].kind == TagsKind && items[i].id in s.tags && RemoteIds(remoteOf(items[i].id)).Done? :: items[i].id
  }

  /** The items on the first page of `GET /tags` or `GET /categories`, as
      the client returns it; none when there is no body. */
  function ListedItems(first: Option<Envelope<Listed>>): seq<Listed>
  {
    if first.Some? && first.value.data.Some? then first.value.data.value else []
  }

  /** A first page with a body but no `data`: reading `data.length` on it
      throws, outside any `try`. */
  predicate MissingData(first: Option<Envelope<Listed>>)
  {
    first.Some? && first.value.data.None?
  }

  const NoListedData := "TypeError: Cannot read properties of undefined (reading 'length')"

  /** `syncTaggedTransactions`: each tag on the first page of `/tags` in
      turn (the source runs them concurrently; each touches only its own
      links). A first page without `data` throws before anything is
      written. On a valid store, every reconciled tag ends up linked to
      exactly the stored transactions the provider lists under it, every
      other tag keeps its links, and nothing but links changes. */
  method SyncTaggedTransactions(s: Store, first: Option<Envelope<Listed>>, remoteOf: TagId -> Listing<TransactionResource>)
    returns (r: Run<Store>)
    ensures r.Failed? <==> MissingData(first)
    ensures r.Failed? ==> r == Failed(s, NoListedData)
    ensures ListedItems(first) == [] ==> r.state == s
    ensures Valid(s) ==> Valid(r.state) && r.state.(transactionTags := s.transactionTags) == s
    ensures Valid(s) ==> forall tag :: tag in SyncedTags(s, ListedItems(first), remoteOf) ==>
      TaggedWith(r.state, tag) == SetOf(RemoteIds(remoteOf(tag)).state) * s.transactions.rows.Keys
    ensures Valid(s) ==> forall id: nat, tag: TagId :: tag !in SyncedTags(s, ListedItems(first), remoteOf) ==>
      ((id, tag) in r.state.transactionTags <==> (id, tag) in s.transactionTags)
  {
    if MissingData(first) {
      return Failed(s, NoListedData);
    }
    var items := ListedItems(first);
    var cur := s;
    var i := 0;
    while i < |items|
      invariant 0 <= i <= |items|
      invariant items == [] ==> cur == s
      invariant Valid(s) ==> Valid(cur) && cur.(transactionTags := s.transactionTags) == s
      invariant Valid(s) ==> TagsReconciled(s, cur, SyncedTags(s, items[..i], remoteOf), remoteOf)
      invariant Valid(s) ==> LinksKeptOutside(s, cur, SyncedTags(s, items[..i], remoteOf))
    {
      ghost var before := cur;
      cur := SyncTag(cur, items[i], remoteOf(items[i].id));
      if Valid(s) {
        SyncedTagsStep(s, items, remoteOf, i);
        TagLoopStep(s, before, cur, items[i], remoteOf, SyncedTags(s, items[..i], remoteOf));
      }
      i := i + 1;
    }
    assert items[..i] == items;
    r := Done(cur);
  }

  /** Every tag in `tags` is linked to exactly the stored transactions the
      provider lists under it. */
  ghost predicate TagsReconciled(s: Store, r: Store, tags: set<TagId>, remoteOf: TagId -> Listing<TransactionResource>)
  {
    forall tag :: tag in tags ==> TaggedWith(r, tag) == SetOf(RemoteIds(remoteOf(tag)).state) * s.transactions.rows.Keys
  }

  /** No tag outside `tags` gained or lost a link. */
  ghost predicate LinksKeptOutside(s: Store, r: Store, tags: set<TagId>)
  {
    forall id: nat, tag: TagId :: tag !in tags ==> ((id, tag) in r.transactionTags <==> (id, tag) in s.transactionTags)
  }

  ghost predicate SyncsTag(s: Store, item: Listed, remoteOf: TagId -> Listing<TransactionResource>)
  {
    item.kind == TagsKind && item.id in s.tags && RemoteIds(remoteOf(item.id)).Done?
  }

  /** One tag of the loop: the reconciled tags grow by that one when it is
      synced, and every other tag keeps its links. */
  lemma TagLoopStep(s: Store, before: Store, r: Store, item: Listed,
                    remoteOf: TagId -> Listing<TransactionResource>, tags: set<TagId>)
    requires before.(transactionTags := s.transactionTags) == s
    requires TagsReconciled(s, before, tags, remoteOf) && LinksKeptOutside(s, before, tags)
    requires LinksOnlyTo(before, r, item.id)
    requires !SyncsTag(s, item, remoteOf) ==> r == before
    requires SyncsTag(s, item, remoteOf) ==>
      TaggedWith(r, item.id) == SetOf(RemoteIds(remoteOf(item.id)).state) * before.transactions.rows.Keys
    ensures var next := tags + (if SyncsTag(s, item, remoteOf) then {item.id} else {});
      TagsReconciled(s, r, next, remoteOf) && LinksKeptOutside(s, r, next)
  {
    var next := tags + (if SyncsTag(s, item, remoteOf) then {item.id} else {});
    forall tag | tag in next
      ensures TaggedWith(r, tag) == SetOf(RemoteIds(remoteOf(tag)).state) * s.transactions.rows.Keys
    {
      if tag != item.id {
        forall k ensures k in TaggedWith(r, tag) <==> k in TaggedWith(before, tag) {
          if k in r.transactions.rows {
            assert (r.transactions.rows[k].id, tag) in r.transactionTags <==> (r.transactions.rows[k].id, tag) in before.transactionTags;
          }
        }
      }
    }
    forall id: nat, tag: TagId | tag !in next
      ensures (id, tag) in r.transactionTags <==> (id, tag) in s.transactionTags
    {
      if SyncsTag(s, item, remoteOf) || tag != item.id {
        assert (id, tag) in r.transactionTags <==> (id, tag) in before.transactionTags;
      }
    }
  }

  lemma SyncedTagsStep(s: Store, items: seq<Listed>, remoteOf: TagId -> Listing<TransactionResource>, i: nat)
    requires i < |items|
    ensures SyncedTags(s, items[..i + 1], remoteOf) ==
      SyncedTags(s, items[..i], remoteOf) +
      (if items[i].kind == TagsKind && items[i].id in s.tags && RemoteIds(remoteOf(items[i].id)).Done? then {items[i].id} else {})
  {
    var p := items[..i + 1];
    assert forall j :: 0 <= j < i ==> p[j] == items[..i][j];
    assert p[i] == items[i];
  }

  // ---------------------------------------------------------------------
  // Categories

  /** The provider ids of the transactions whose category is `c`. */
  function InCategory(s: Store, c: CategoryId): set<string>
  {
    set k | k in s.transactions.rows && s.transactions.rows[k].row.categoryId == Some(c)
  }

  lemma CategoryQuery(s: Store, c: CategoryId)
    ensures ProviderIds(GetTransactionsByCategory(s, c)) == InCategory(s, c)
  {
    forall k | k in InCategory(s, c) ensures k in ProviderIds(GetTransactionsByCategory(s, c)) {
      assert IdPair(s.transactions.rows[k].id, k) in GetTransactionsByCategory(s, c);
    }
  }

  /** `updateTransaction(providerId, (transactionId) =>
      updateTransactionCategory(transactionId, category))`, at `now`:
      `Some(categoryId)` files the transaction, `None` (null) clears it. */
  function Recategorise(category: Option<CategoryId>, now: Time): (Store, string) -> Result<Store>
  {
    (s: Store, pid: string) => UpdateTransaction(s, pid, (st: Store, id: nat) => UpdateTransactionCategory(st, id, category, None, now))
  }

  /** Only `category_id` and `updated_at` of existing rows differ. */
  ghost predicate OnlyCategories(s: Store, r: Store)
  {
    && r.(transactions := s.transactions) == s
    && r.transactions.next == s.transactions.next
    && r.transactions.rows.Keys == s.transactions.rows.Keys
    && (forall k :: k in s.transactions.rows ==>
          && r.transactions.rows[k].id == s.transactions.rows[k].id
          && r.transactions.rows[k].row.(categoryId := s.transactions.rows[k].row.categoryId,
                                         updatedAt := s.transactions.rows[k].row.updatedAt) == s.transactions.rows[k].row)
  }

  lemma OnlyCategoriesTrans(s: Store, q: Store, r: Store)
    requires OnlyCategories(s, q) && OnlyCategories(q, r)
    ensures OnlyCategories(s, r)
  {
  }

  /** One callback is the category update of the listed transaction, or
      nothing when it is not stored. */
  lemma CategoryCallback(q: Store, category: Option<CategoryId>, now: Time, x: string)
    requires Valid(q) && (category.Some? ==> category.value in q.categories)
    ensures x !in q.transactions.rows ==> After(q, Recategorise(category, now)(q, x)) == q
    ensures x in q.transactions.rows ==>
      && UpdateTransactionCategory(q, q.transactions.rows[x].id, category, None, now).Ok?
      && After(q, Recategorise(category, now)(q, x)) == UpdateTransactionCategory(q, q.transactions.rows[x].id, category, None, now).value
  {
    if x in q.transactions.rows {
      assert Recategorise(category, now)(q, x) == UpdateTransactionCategory(q, q.transactions.rows[x].id, category, None, now);
    } else {
      assert Recategorise(category, now)(q, x) == Ok(q);
    }
  }

  /** One callback: the listed transaction, if stored, gets `category`;
      every other row is left alone. */
  lemma CategoryStep(q: Store, category: Option<CategoryId>, now: Time, x: string)
    requires Valid(q) && (category.Some? ==> category.value in q.categories)
    ensures var r := After(q, Recategorise(category, now)(q, x));
      && Valid(r) && OnlyCategories(q, r)
      && (x in q.transactions.rows ==> r.transactions.rows[x].row.categoryId == OrNull(category))
      && (forall k :: k in q.transactions.rows && k != x ==> r.transactions.rows[k] == q.transactions.rows[k])
  {
    CategoryCallback(q, category, now, x);
    if x in q.transactions.rows {
      UpdateTransactionCategoryValid(q, q.transactions.rows[x].id, category, None, now);
      CategoryStepRows(q, category, now, x);
    }
  }

  /** The rows one callback leaves: only the listed one is recategorised. */
  lemma CategoryStepRows(q: Store, category: Option<CategoryId>, now: Time, x: string)
    requires Valid(q) && (category.Some? ==> category.value in q.categories) && x in q.transactions.rows
    ensures var r := RecategoriseWhere(q.transactions, q.transactions.rows[x].id, OrNull(category), None, now);
      && OnlyCategories(q, q.(transactions := r))
      && r.rows[x].row.categoryId == OrNull(category)
      && (forall k :: k in q.transactions.rows && k != x ==> r.rows[k] == q.transactions.rows[k])
  {
    var id := q.transactions.rows[x].id;
    var c := OrNull(category);
    var t := RecategoriseWhere(q.transactions, id, c, None, now);
    forall k | k in q.transactions.rows
      ensures t.rows[k] == if k == x then Keyed(id, Recategorised(q.transactions.rows[k].row, c, None, now)) else q.transactions.rows[k]
    {
      if k != x {
        assert q.transactions.rows[k].id != id;
      }
    }
    RecategorisedOnly(q.transactions.rows[x].row, c, now);
  }

  /** A category update without `updatedBy` changes the category and the
      stamp and nothing else. */
  lemma RecategorisedOnly(row: TransactionRow, c: Option<CategoryId>, now: Time)
    ensures Recategorised(row, c, None, now).categoryId == c
    ensures Recategorised(row, c, None, now).(categoryId := row.categoryId, updatedAt := row.updatedAt) == row
  {
  }

  /** The callbacks for `items` settled in turn keep the store valid and
      touch only categories. */
  lemma {:induction false} SettleCategoryValid(s: Store, category: Option<CategoryId>, now: Time, items: seq<string>)
    requires Valid(s) && (category.Some? ==> category.value in s.categories)
    ensures var r := Settle(s, items, Recategorise(category, now)).state;
      Valid(r) && OnlyCategories(s, r)
    decreases |items|
  {
    var f := Recategorise(category, now);
    if items != [] {
      var p := items[..|items| - 1];
      var x := items[|items| - 1];
      SettleCategoryValid(s, category, now, p);
      var q := Settle(s, p, f).state;
      CategoryStep(q, category, now, x);
      var r := After(q, f(q, x));
      assert Settle(s, items, f).state == r;
      OnlyCategoriesTrans(s, q, r);
    }
  }

  /** The callbacks for `items` settled in turn: every listed transaction
      that is stored gets `category`, and every other row is left alone. */
  lemma {:induction false} SettleCategoryRows(s: Store, category: Option<CategoryId>, now: Time, items: seq<string>)
    requires Valid(s) && (category.Some? ==> category.value in s.categories)
    ensures var r := Settle(s, items, Recategorise(category, now)).state;
      && r.transactions.rows.Keys == s.transactions.rows.Keys
      && (forall k :: k in s.transactions.rows && k in SetOf(items) ==> r.transactions.rows[k].row.categoryId == OrNull(category))
      && (forall k :: k in s.transactions.rows && k !in SetOf(items) ==> r.transactions.rows[k] == s.transactions.rows[k])
    decreases |items|
  {
    var f := Recategorise(category, now);
    if items != [] {
      var p := items[..|items| - 1];
      var x := items[|items| - 1];
      SettleCategoryRows(s, category, now, p);
      SettleCategoryValid(s, category, now, p);
      var q := Settle(s, p, f).state;
      CategoryStep(q, category, now, x);
      var r := After(q, f(q, x));
      assert Settle(s, items, f).state == r;
      SetOfSnoc(items);
      forall k | k in s.transactions.rows && k in SetOf(items)
        ensures r.transactions.rows[k].row.categoryId == OrNull(category)
      {
        if k != x {
          assert k in SetOf(p);
        }
      }
      forall k | k in s.transactions.rows && k !in SetOf(items)
        ensures r.transactions.rows[k] == s.transactions.rows[k]
      {
        assert k !in SetOf(p) && k != x;
      }
    }
  }

  /** The callbacks for `items` settled in turn: every listed transaction
      that is stored gets `category`, and every other row is left alone. */
  lemma SettleCategory(s: Store, category: Option<CategoryId>, now: Time, items: seq<string>)
    requires Valid(s) && (category.Some? ==> category.value in s.categories)
    ensures var r := Settle(s, items, Recategorise(category, now)).state;
      && Valid(r) && OnlyCategories(s, r)
      && (forall k :: k in s.transactions.rows && k in SetOf(items) ==> r.transactions.rows[k].row.categoryId == OrNull(category))
      && (forall k :: k in s.transactions.rows && k !in SetOf(items) ==> r.transactions.rows[k] == s.transactions.rows[k])
  {
    SettleCategoryValid(s, category, now, items);
    SettleCategoryRows(s, category, now, items);
  }

  /** Every row is left alone, cleared, or filed under `c`. */
  ghost predicate FiledOnly(s: Store, r: Store, c: Option<CategoryId>)
  {
    forall k :: k in s.transactions.rows && k in r.transactions.rows ==>
      r.transactions.rows[k] == s.transactions.rows[k] || r.transactions.rows[k].row.categoryId.None? || r.transactions.rows[k].row.categoryId == c
  }

  /** The filing callbacks settled, then the clearing ones. */
  lemma SetThenClear(s: Store, c: CategoryId, now: Time, ins: seq<string>, del: seq<string>)
    requires Valid(s) && c in s.categories && c != ""
    ensures var r := Settle(Settle(s, ins, Recategorise(Some(c), now)).state, del, Recategorise(None, now)).state;
      && Valid(r) && OnlyCategories(s, r)
      && (forall k :: k in s.transactions.rows && k in SetOf(del) ==> r.transactions.rows[k].row.categoryId.None?)
      && (forall k :: k in s.transactions.rows && k !in SetOf(del) && k in SetOf(ins) ==> r.transactions.rows[k].row.categoryId == Some(c))
      && (forall k :: k in s.transactions.rows && k !in SetOf(del) && k !in SetOf(ins) ==> r.transactions.rows[k] == s.transactions.rows[k])
  {
    SettleCategory(s, Some(c), now, ins);
    var mid := Settle(s, ins, Recategorise(Some(c), now)).state;
    SettleCategory(mid, None, now, del);
    OnlyCategoriesTrans(s, mid, Settle(mid, del, Recategorise(None, now)).state);
  }

  /** Reconciling one category leaves in it exactly the stored
      transactions the provider lists under it: the ones it did not hold
      are filed under it, the ones the provider no longer lists are
      cleared, and every other row, and every other table, is left alone. */
  lemma ReconcileCategory(s: Store, c: CategoryId, now: Time, ids: seq<string>, db: seq<string>)
    requires Valid(s) && c in s.categories && c != "" && SetOf(db) == InCategory(s, c)
    ensures var r := Reconcile(s, ids, db, Recategorise(Some(c), now), Recategorise(None, now)).state;
      && Valid(r) && OnlyCategories(s, r)
      && InCategory(r, c) == SetOf(ids) * s.transactions.rows.Keys
      && (forall k :: k in InCategory(s, c) && k !in SetOf(ids) ==> r.transactions.rows[k].row.categoryId.None?)
      && (forall k :: k in s.transactions.rows && (k in SetOf(ids) <==> k in InCategory(s, c)) ==>
            r.transactions.rows[k] == s.transactions.rows[k])
      && FiledOnly(s, r, Some(c))
  {
    if ids != [] || db != [] {
      var toInsert := Difference(ids, db);
      var toDelete := Difference(db, ids);
      SetThenClear(s, c, now, toInsert, toDelete);
      assert SetOf(toInsert) == SetOf(ids) - SetOf(db);
      assert SetOf(toDelete) == SetOf(db) - SetOf(ids);
      var r := Reconcile(s, ids, db, Recategorise(Some(c), now), Recategorise(None, now)).state;
      assert InCategory(r, c) == SetOf(ids) * s.transactions.rows.Keys by {
        forall k | k in s.transactions.rows ensures k in InCategory(r, c) <==> k in SetOf(ids) {
          if k !in SetOf(toDelete) && k !in SetOf(toInsert) {
            assert r.transactions.rows[k] == s.transactions.rows[k];
          }
        }
      }
    }
  }

  /** What the category loop needs from one `SyncCategory`. */
  ghost predicate CategorySynced(s: Store, item: Listed, remote: Listing<TransactionResource>, r: Store)
  {
    && (item.kind != CategoriesKind || item.id !in s.categories || RemoteIds(remote).Failed? ==> r == s)
    && (Valid(s) ==> Valid(r) && OnlyCategories(s, r) && FiledOnly(s, r, OrNull(Some(item.id))))
    && (Valid(s) && item.kind == CategoriesKind && item.id in s.categories && item.id != "" && RemoteIds(remote).Done? ==>
          InCategory(r, item.id) == SetOf(RemoteIds(remote).state) * s.transactions.rows.Keys)
  }

  /** One child category of `syncCategorisedTransactions`: a wrong `type`,
      a category that is not stored, or a later page that fails ends its
      sync with an alert and no change; otherwise the provider's ids are
      reconciled with the transactions stored under it. */
  method SyncCategory(s: Store, item: Listed, remote: Listing<TransactionResource>, now: Time) returns (r: Store)
    ensures CategorySynced(s, item, remote, r)
    ensures item.kind != CategoriesKind || item.id !in s.categories || RemoteIds(remote).Failed? ==> r == s
    ensures Valid(s) ==> Valid(r) && OnlyCategories(s, r)
    ensures Valid(s) ==> FiledOnly(s, r, OrNull(Some(item.id)))
    ensures Valid(s) && item.kind == CategoriesKind && item.id in s.categories && item.id != "" && RemoteIds(remote).Done? ==>
      && InCategory(r, item.id) == SetOf(RemoteIds(remote).state) * s.transactions.rows.Keys
      && (forall k :: k in InCategory(s, item.id) && k !in SetOf(RemoteIds(remote).state) ==> r.transactions.rows[k].row.categoryId.None?)
      && (forall k :: k in s.transactions.rows && (k in SetOf(RemoteIds(remote).state) <==> k in InCategory(s, item.id)) ==>
            r.transactions.rows[k] == s.transactions.rows[k])
  {
    if item.kind != CategoriesKind || item.id !in s.categories {
      return s;
    }
    var c := item.id;
    var w := WalkListing([], remote, CollectIds);
    if w.run.Failed? {
      return s;
    }
    var db := Enumerate(ProviderIds(GetTransactionsByCategory(s, c)));
    var cmp := CompareProviderAndDb(s, w.run.state, db, Recategorise(Some(c), now), Recategorise(None, now));
    r := cmp.state;
    if Valid(s) {
      CategoryQuery(s, c);
      if c != "" {
        ReconcileCategory(s, c, now, w.run.state, db);
      } else {
        SyncEmptyCategory(s, now, w.run.state, db);
      }
    }
  }

  /** A category id of "" is falsy, so filing under it clears instead. */
  lemma SyncEmptyCategory(s: Store, now: Time, ids: seq<string>, db: seq<string>)
    requires Valid(s) && "" in s.categories
    ensures var r := Reconcile(s, ids, db, Recategorise(Some(""), now), Recategorise(None, now)).state;
      && Valid(r) && OnlyCategories(s, r) && FiledOnly(s, r, None)
  {
    if ids != [] || db != [] {
      var toInsert := Difference(ids, db);
      SettleCategory(s, Some(""), now, toInsert);
      var mid := Settle(s, toInsert, Recategorise(Some(""), now)).state;
      SettleCategory(mid, None, now, Difference(db, ids));
      OnlyCategoriesTrans(s, mid, Settle(mid, Difference(db, ids), Recategorise(None, now)).state);
    }
  }

  /** The child categories that a run over `items` reconciles. */
  function SyncedCategories(s: Store, items: seq<Listed>, remoteOf: CategoryId -> Listing<TransactionResource>): set<CategoryId>
  {
    set i | 0 <= i < |items| && items[i].hasParent && items[i].kind == CategoriesKind && items[i].id in s.categories
              && items[i].id != "" && RemoteIds(remoteOf(items[i].id)).Done? :: items[i].id
  }

  lemma SyncedCategoriesStep(s: Store, items: seq<Listed>, remoteOf: CategoryId -> Listing<TransactionResource>, i: nat)
    requires i < |items|
    ensures SyncedCategories(s, items[..i + 1], remoteOf) ==
      SyncedCategories(s, items[..i], remoteOf) +
      (if items[i].hasParent && items[i].kind == CategoriesKind && items[i].id in s.categories && items[i].id != ""
            && RemoteIds(remoteOf(items[i].id)).Done? then {items[i].id} else {})
  {
    var p := items[..i + 1];
    assert forall j :: 0 <= j < i ==> p[j] == items[..i][j];
    assert p[i] == items[i];
  }

  /** A transaction whose category changed was cleared or filed under one
      of `cats`. */
  ghost predicate MovedInto(s: Store, r: Store, cats: set<CategoryId>)
    requires r.transactions.rows.Keys == s.transactions.rows.Keys
  {
    forall k :: k in s.transactions.rows && r.transactions.rows[k].row.categoryId != s.transactions.rows[k].row.categoryId ==>
      (r.transactions.rows[k].row.categoryId.None? || r.transactions.rows[k].row.categoryId.value in cats)
  }

  /** A transaction under one of `cats` is listed there by the provider. */
  ghost predicate ListedUnder(r: Store, cats: set<CategoryId>, remoteOf: CategoryId -> Listing<TransactionResource>)
  {
    forall k, c :: k in r.transactions.rows && c in cats && r.transactions.rows[k].row.categoryId == Some(c) ==>
      k in SetOf(RemoteIds(remoteOf(c)).state)
  }

  ghost predicate SyncsCategory(s: Store, item: Listed, remoteOf: CategoryId -> Listing<TransactionResource>)
  {
    item.hasParent && item.kind == CategoriesKind && item.id in s.categories && item.id != "" && RemoteIds(remoteOf(item.id)).Done?
  }

  lemma CategoryLoopStep(s: Store, before: Store, r: Store, item: Listed,
                         remoteOf: CategoryId -> Listing<TransactionResource>, cats: set<CategoryId>)
    requires OnlyCategories(s, before) && OnlyCategories(before, r)
    requires MovedInto(s, before, cats) && ListedUnder(before, cats, remoteOf)
    requires FiledOnly(before, r, OrNull(Some(item.id)))
    requires !SyncsCategory(s, item, remoteOf) && item.id != "" ==> r == before
    requires SyncsCategory(s, item, remoteOf) ==>
      InCategory(r, item.id) == SetOf(RemoteIds(remoteOf(item.id)).state) * before.transactions.rows.Keys
    ensures var next := cats + (if SyncsCategory(s, item, remoteOf) then {item.id} else {});
      MovedInto(s, r, next) && ListedUnder(r, next, remoteOf)
  {
    var next := cats + (if SyncsCategory(s, item, remoteOf) then {item.id} else {});
    forall k | k in s.transactions.rows && r.transactions.rows[k].row.categoryId != s.transactions.rows[k].row.categoryId
      ensures r.transactions.rows[k].row.categoryId.None? || r.transactions.rows[k].row.categoryId.value in next
    {
    }
    forall k, c | k in r.transactions.rows && c in next && r.transactions.rows[k].row.categoryId == Some(c)
      ensures k in SetOf(RemoteIds(remoteOf(c)).state)
    {
      if SyncsCategory(s, item, remoteOf) && c == item.id {
        assert k in InCategory(r, item.id);
      }
    }
  }

  /** `syncCategorisedTransactions`: each child category on `/categories`
      in turn (the source runs them concurrently). A first page without
      `data` throws before anything is written. On a valid store only
      `category_id` and `updated_at` change; a transaction whose category
      changed was cleared or filed under a reconciled category; and a
      transaction under a reconciled category is one the provider lists
      under it. (The converse needs the provider's listings to be
      disjoint, which nothing checks.) */
  method SyncCategorisedTransactions(s: Store, first: Option<Envelope<Listed>>,
                                     remoteOf: CategoryId -> Listing<TransactionResource>, now: Time)
    returns (r: Run<Store>)
    ensures r.Failed? <==> MissingData(first)
    ensures r.Failed? ==> r == Failed(s, NoListedData)
    ensures ListedItems(first) == [] ==> r.state == s
    ensures Valid(s) ==> Valid(r.state) && OnlyCategories(s, r.state)
    ensures Valid(s) ==> MovedInto(s, r.state, SyncedCategories(s, Children(ListedItems(first)), remoteOf))
    ensures Valid(s) ==> ListedUnder(r.state, SyncedCategories(s, Children(ListedItems(first)), remoteOf), remoteOf)
  {
    if MissingData(first) {
      return Failed(s, NoListedData);
    }
    var cur := SyncCategories(s, Children(ListedItems(first)), remoteOf, now);
    r := Done(cur);
  }

  /** The loop of `syncCategorisedTransactions` over the child categories. */
  method SyncCategories(s: Store, items: seq<Listed>, remoteOf: CategoryId -> Listing<TransactionResource>, now: Time)
    returns (r: Store)
    requires forall j :: 0 <= j < |items| ==> items[j].hasParent
    ensures items == [] ==> r == s
    ensures Valid(s) ==> CategoryInv(s, r, SyncedCategories(s, items, remoteOf), remoteOf)
  {
    r := s;
    var i := 0;
    while i < |items|
      invariant 0 <= i <= |items|
      invariant items == [] ==> r == s
      invariant Valid(s) ==> CategoryInv(s, r, SyncedCategories(s, items[..i], remoteOf), remoteOf)
    {
      ghost var before := r;
      var remote := remoteOf(items[i].id);
      r := SyncCategory(r, items[i], remote, now);
      if Valid(s) {
        CategoryLoopInv(s, items, remoteOf, i, remote, before, r);
      }
      i := i + 1;
    }
    assert items[..i] == items;
  }

  /** The filter on `relationships.parent.data`: the child categories, in
      their listed order. */
  function Children(items: seq<Listed>): (r: seq<Listed>)
    ensures forall j :: 0 <= j < |r| ==> r[j].hasParent
  {
    if items == [] then []
    else (if items[0].hasParent then [items[0]] else []) + Children(items[1..])
  }

  /** `Children` keeps exactly the listed entries that have a parent. */
  lemma {:induction false} ChildrenFiltered(items: seq<Listed>)
    ensures forall x :: x in Children(items) <==> x in items && x.hasParent
  {
    if items != [] {
      ChildrenFiltered(items[1..]);
      assert items == [items[0]] + items[1..];
    }
  }

  /** What the category loop keeps: the store is valid, only categories
      changed, each changed row went to one of `cats` or was cleared, and
      each row under one of `cats` is listed there. */
  ghost predicate CategoryInv(s: Store, r: Store, cats: set<CategoryId>, remoteOf: CategoryId -> Listing<TransactionResource>)
  {
    Valid(r) && OnlyCategories(s, r) && MovedInto(s, r, cats) && ListedUnder(r, cats, remoteOf)
  }

  /** One child category of the loop, from what `SyncCategory` promises. */
  lemma CategoryLoopInv(s: Store, items: seq<Listed>, remoteOf: CategoryId -> Listing<TransactionResource>, i: nat,
                        remote: Listing<TransactionResource>, before: Store, r: Store)
    requires i < |items| && Valid(s) && items[i].hasParent && remote == remoteOf(items[i].id)
    requires CategoryInv(s, before, SyncedCategories(s, items[..i], remoteOf), remoteOf)
    requires CategorySynced(before, items[i], remote, r)
    ensures CategoryInv(s, r, SyncedCategories(s, items[..i + 1], remoteOf), remoteOf)
  {
    SyncedCategoriesStep(s, items, remoteOf, i);
    var cats := SyncedCategories(s, items[..i], remoteOf);
    assert before.categories == s.categories;
    OnlyCategoriesTrans(s, before, r);
    CategoryLoopStep(s, before, r, items[i], remoteOf, cats);
  }

  // ---------------------------------------------------------------------
  // The handler

  /** `handler`: tags first, then tagged transactions, then categorised
      ones; a step that throws rejects the handler and the later steps do
      not run. On a valid store the result is valid, accounts and
      categories are untouched, the tags are those `processTags` leaves,
      every tag the second step reconciles keeps exactly the provider's
      stored transactions (the category step does not touch links), and
      the third step's guarantees hold against the transactions as they
      were: only categories and stamps changed, each changed row was
      cleared or filed under a reconciled child category, and each row
      under one of those is listed there by the provider. */
  method Handler(s: Store, tagListing: Listing<Tags.TagResource>,
                 tagsFirst: Option<Envelope<Listed>>, tagRemoteOf: TagId -> Listing<TransactionResource>,
                 categoriesFirst: Option<Envelope<Listed>>, categoryRemoteOf: CategoryId -> Listing<TransactionResource>,
                 now: Time)
    returns (r: Run<Store>)
    ensures r.Failed? <==> MissingData(tagsFirst) || MissingData(categoriesFirst)
    ensures r.Failed? ==> r.reason == NoListedData
    ensures MissingData(tagsFirst) ==> r.state == Tags.TagsRun(s, tagListing)
    ensures Valid(s) ==>
      && Valid(r.state)
      && r.state.accounts == s.accounts
      && r.state.categories == s.categories
      && r.state.tags == Tags.TagsRun(s, tagListing).tags
      && r.state.transactions.rows.Keys == s.transactions.rows.Keys
    ensures Valid(s) && !MissingData(tagsFirst) ==>
      forall tag :: tag in SyncedTags(Tags.TagsRun(s, tagListing), ListedItems(tagsFirst), tagRemoteOf) ==>
        TaggedWith(r.state, tag) == SetOf(RemoteIds(tagRemoteOf(tag)).state) * s.transactions.rows.Keys
    ensures Valid(s) ==> RowsRecategorised(s, r.state)
    ensures Valid(s) ==> MovedInto(s, r.state, SyncedCategories(s, Children(ListedItems(categoriesFirst)), categoryRemoteOf))
    ensures Valid(s) && !MissingData(tagsFirst) ==>
      ListedUnder(r.state, SyncedCategories(s, Children(ListedItems(categoriesFirst)), categoryRemoteOf), categoryRemoteOf)
  {
    var tagged := Tags.ProcessTags(s, tagListing);
    var linked := SyncTaggedTransactions(tagged, tagsFirst, tagRemoteOf);
    if linked.Failed? {
      r := linked;
      if Valid(s) {
        Tags.ProcessTagsValid(s, tagListing);
        Tags.ProcessTagsMirrors(s, tagListing);
        assert linked.state.transactions == s.transactions;
      }
      return;
    }
    r := SyncCategorisedTransactions(linked.state, categoriesFirst, categoryRemoteOf, now);
    if Valid(s) {
      Tags.ProcessTagsValid(s, tagListing);
      Tags.ProcessTagsMirrors(s, tagListing);
      CategoriesKeepLinks(linked.state, r.state);
      HandlerCategories(s, linked.state, r.state, Children(ListedItems(categoriesFirst)), categoryRemoteOf);
    }
  }

  /** The transaction table differs only in categories and stamps: the same
      rows, surrogate ids and identity. */
  ghost predicate RowsRecategorised(s: Store, r: Store)
  {
    && r.transactions.next == s.transactions.next
    && r.transactions.rows.Keys == s.transactions.rows.Keys
    && (forall k :: k in s.transactions.rows ==>
          && r.transactions.rows[k].id == s.transactions.rows[k].id
          && r.transactions.rows[k].row.(categoryId := s.transactions.rows[k].row.categoryId,
                                         updatedAt := s.transactions.rows[k].row.updatedAt) == s.transactions.rows[k].row)
  }

  /** The category step's guarantees, stated against the store it started
      from, carry over to any store with the same transactions and
      categories. */
  lemma HandlerCategories(s: Store, linked: Store, r: Store, items: seq<Listed>,
                          remoteOf: CategoryId -> Listing<TransactionResource>)
    requires linked.transactions == s.transactions && linked.categories == s.categories
    requires OnlyCategories(linked, r)
    requires MovedInto(linked, r, SyncedCategories(linked, items, remoteOf))
    ensures RowsRecategorised(s, r)
    ensures SyncedCategories(linked, items, remoteOf) == SyncedCategories(s, items, remoteOf)
    ensures MovedInto(s, r, SyncedCategories(s, items, remoteOf))
  {
  }

  /** Changing only categories leaves every tag's transactions alone. */
  lemma CategoriesKeepLinks(s: Store, r: Store)
    requires OnlyCategories(s, r)
    ensures forall tag :: TaggedWith(r, tag) == TaggedWith(s, tag)
  {
    forall tag ensures TaggedWith(r, tag) == TaggedWith(s, tag) {
      forall k | k in s.transactions.rows ensures r.transactions.rows[k].id == s.transactions.rows[k].id {
      }
    }
  }
}

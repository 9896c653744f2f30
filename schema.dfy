/** The `afinia` Postgres schema as one value: the account and transaction
    tables with identity keys, the text-keyed category and tag tables, the
    per-transaction detail tables and the transaction-tag link table. */
module Schema {
  import opened Wrappers
  import opened Upsert

  /** A timestamp with time zone, as an instant. */
  type Time = nat

  type CategoryId = string
  type TagId = string

  datatype Money = Money(currencyCode: string, value: string, valueInBaseUnits: int)

  /** The columns of `account` that an upsert refreshes. */
  datatype AccountDetails = AccountDetails(accountType: string, ownershipType: string, displayName: string, balance: Money)

  /** `account`. `deleted_at` is in the schema but nothing in the
      ingestion core writes it. */
  datatype AccountRow = AccountRow(details: AccountDetails, createdAt: Time,
                                   updatedAt: Option<Time>, updatedBy: Option<string>, deletedAt: Option<Time>)

  /** `category`, keyed by its text id. */
  datatype CategoryRow = CategoryRow(name: string, parentId: Option<CategoryId>)

  /** The columns of `transaction` that an upsert refreshes, besides
      `category_id`. */
  datatype TxDetails = TxDetails(
    transactionType: Option<string>, status: string, attachmentId: Option<string>,
    rawText: Option<string>, description: Option<string>, message: Option<string>, note: Option<string>,
    cardPurchaseMethod: Option<string>, cardNumberSuffix: Option<string>,
    customerDisplayName: Option<string>, deepLinkUrl: Option<string>, isCategorizable: bool,
    amount: Money, foreignCurrencyCode: Option<string>, foreignValue: Option<string>,
    foreignValueInBaseUnits: Option<int>, settledAt: Option<Time>)

  /** `transaction`. `accountId` and `transferAccountId` are surrogate ids
      of `account`. */
  datatype TransactionRow = TransactionRow(details: TxDetails, categoryId: Option<CategoryId>,
                                           accountId: nat, transferAccountId: Option<nat>, createdAt: Time,
                                           deletedAt: Option<Time>, updatedAt: Option<Time>, updatedBy: Option<string>)

  datatype HoldInfoRow = HoldInfoRow(amount: Money, foreignCurrencyCode: Option<string>,
                                     foreignValue: Option<string>, foreignValueInBaseUnits: Option<int>)
  datatype RoundUpRow = RoundUpRow(amount: Money, boostCurrencyCode: Option<string>,
                                   boostValue: Option<string>, boostValueInBaseUnits: Option<int>)
  datatype CashbackRow = CashbackRow(description: string, amount: Money)

  /** The whole database. The detail tables are keyed by a transaction's
      surrogate id; `transactionTags` is the link table, whose primary key
      is the pair. */
  datatype Store = Store(
    accounts: Table<AccountRow>,
    categories: map<CategoryId, CategoryRow>,
    tags: set<TagId>,
    transactions: Table<TransactionRow>,
    holdInfo: map<nat, HoldInfoRow>,
    roundUps: map<nat, RoundUpRow>,
    cashbacks: map<nat, CashbackRow>,
    transactionTags: set<(nat, TagId)>)

  function EmptyStore(): Store
  {
    Store(EmptyTable(), map[], {}, EmptyTable(), map[], map[], map[], {})
  }

  function AccountIds(s: Store): set<nat>
  {
    set k | k in s.accounts.rows :: s.accounts.rows[k].id
  }

  function TransactionIds(s: Store): set<nat>
  {
    set k | k in s.transactions.rows :: s.transactions.rows[k].id
  }

  /** The provider ids of the transactions linked to `tag`. */
  function TaggedWith(s: Store, tag: TagId): set<string>
  {
    set k | k in s.transactions.rows && (s.transactions.rows[k].id, tag) in s.transactionTags
  }

  predicate CategoryKeys(s: Store)
  {
    forall c :: c in s.categories && s.categories[c].parentId.Some? ==> s.categories[c].parentId.value in s.categories
  }

  predicate TransactionKeys(s: Store)
  {
    forall k :: k in s.transactions.rows ==>
      var row := s.transactions.rows[k].row;
      && row.accountId in AccountIds(s)
      && (row.transferAccountId.Some? ==> row.transferAccountId.value in AccountIds(s))
      && (row.categoryId.Some? ==> row.categoryId.value in s.categories)
  }

  predicate DetailKeys(s: Store)
  {
    && s.holdInfo.Keys <= TransactionIds(s)
    && s.roundUps.Keys <= TransactionIds(s)
    && s.cashbacks.Keys <= TransactionIds(s)
    && (forall link :: link in s.transactionTags ==> link.0 in TransactionIds(s) && link.1 in s.tags)
  }

  /** Every key and foreign key of the schema holds. */
  predicate Valid(s: Store)
  {
    && WellFormed(s.accounts)
    && WellFormed(s.transactions)
    && CategoryKeys(s)
    && TransactionKeys(s)
    && DetailKeys(s)
  }

  /** Rewriting rows of `transaction` in place keeps a store valid when
      each row keeps its surrogate id and its accounts and points at an
      existing category, if any. */
  lemma RewriteTransactionsValid(s: Store, t: Table<TransactionRow>)
    requires Valid(s)
    requires t.rows.Keys == s.transactions.rows.Keys && t.next == s.transactions.next
    requires forall k :: k in t.rows ==> t.rows[k].id == s.transactions.rows[k].id
    requires forall k :: k in t.rows ==> t.rows[k].row.accountId == s.transactions.rows[k].row.accountId
    requires forall k :: k in t.rows ==> t.rows[k].row.transferAccountId == s.transactions.rows[k].row.transferAccountId
    requires forall k :: k in t.rows && t.rows[k].row.categoryId.Some? ==> t.rows[k].row.categoryId.value in s.categories
    ensures Valid(s.(transactions := t))
  {
    var r := s.(transactions := t);
    assert TransactionIds(r) == TransactionIds(s);
    assert AccountIds(r) == AccountIds(s);
    assert WellFormed(t) by {
      forall k1, k2 | k1 in t.rows && k2 in t.rows && t.rows[k1].id == t.rows[k2].id ensures k1 == k2 {
        assert s.transactions.rows[k1].id == s.transactions.rows[k2].id;
      }
    }
    assert TransactionKeys(r) by {
      forall k | k in t.rows ensures t.rows[k].row.accountId in AccountIds(r) {
        assert s.transactions.rows[k].row.accountId in AccountIds(s);
      }
      forall k | k in t.rows && t.rows[k].row.transferAccountId.Some? ensures t.rows[k].row.transferAccountId.value in AccountIds(r) {
        assert s.transactions.rows[k].row.transferAccountId.value in AccountIds(s);
      }
    }
  }

  lemma EmptyStoreValid()
    ensures Valid(EmptyStore())
  {
  }

  // ---------------------------------------------------------------------
  // Deleting tags

  /** `DELETE FROM tag WHERE …`: the links of a deleted tag go with it
      (`ON DELETE CASCADE`). */
  function DeleteTagsWhere(s: Store, doomed: set<TagId>): (r: Store)
    ensures r.tags == s.tags - doomed
    ensures forall link :: link in r.transactionTags <==> link in s.transactionTags && link.1 !in doomed
    ensures r.(tags := s.tags, transactionTags := s.transactionTags) == s
  {
    s.(tags := s.tags - doomed, transactionTags := set link | link in s.transactionTags && link.1 !in doomed)
  }

  lemma DeleteTagsWhereValid(s: Store, doomed: set<TagId>)
    requires Valid(s)
    ensures Valid(DeleteTagsWhere(s, doomed))
  {
  }

  // ---------------------------------------------------------------------
  // The `transaction_external` view

  datatype ExternalRow = ExternalRow(transaction: Keyed<TransactionRow>, category: Option<string>,
                                     categoryParentId: Option<CategoryId>, categoryParent: Option<string>)

  /** The category columns of a row of the view: two left joins. The parent
      id comes from the joined parent row, so it is null when that row is
      missing. */
  function JoinCategory(s: Store, t: Keyed<TransactionRow>): ExternalRow
  {
    var c := t.row.categoryId;
    if c.None? || c.value !in s.categories then ExternalRow(t, None, None, None)
    else
      var cat := s.categories[c.value];
      if cat.parentId.None? || cat.parentId.value !in s.categories then ExternalRow(t, Some(cat.name), None, None)
      else ExternalRow(t, Some(cat.name), cat.parentId, Some(s.categories[cat.parentId.value].name))
  }

  predicate IsExternal(row: TransactionRow)
  {
    row.details.isCategorizable && row.deletedAt.None?
  }

  /** `transaction_external`, by provider id: the categorisable
      transactions that are not soft-deleted, with their category's name
      and their category's parent. */
  function TransactionExternal(s: Store): map<string, ExternalRow>
  {
    map k | k in s.transactions.rows && IsExternal(s.transactions.rows[k].row) :: JoinCategory(s, s.transactions.rows[k])
  }

  /** Transfers between accounts and soft-deleted transactions are not in
      the view; every other transaction is, with its own columns. In a
      valid store the joins lose nothing: the category name is there
      exactly when the transaction has a category, and the parent columns
      are that category's parent. */
  lemma TransactionExternalRows(s: Store, k: string)
    requires Valid(s)
    ensures k in TransactionExternal(s) <==> k in s.transactions.rows && IsExternal(s.transactions.rows[k].row)
    ensures k in TransactionExternal(s) ==>
      var e := TransactionExternal(s)[k];
      var row := s.transactions.rows[k].row;
      && e.transaction == s.transactions.rows[k]
      && (e.category.Some? <==> row.categoryId.Some?)
      && (row.categoryId.Some? ==>
            && e.category == Some(s.categories[row.categoryId.value].name)
            && e.categoryParentId == s.categories[row.categoryId.value].parentId
            && (e.categoryParent.Some? <==> e.categoryParentId.Some?))
      && (row.categoryId.None? ==> e.categoryParentId.None? && e.categoryParent.None?)
  {
  }
}

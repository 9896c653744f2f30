/** The prepared queries of `db/queries/transaction.ts`, over the store. A
    statement that Postgres refuses returns `Err` and changes nothing. */
module Queries {
  import opened Wrappers
  import opened Upsert
  import opened Schema

  const DuplicateKey := "duplicate key value violates unique constraint \"transaction_tag_pk\""
  const TagLinkForeignKey := "insert or update on table \"transaction_tag\" violates foreign key constraint"
  const CategoryForeignKey := "insert or update on table \"transaction\" violates foreign key constraint \"transaction_category_fk\""

  /** A selected `{ id, providerId }`. */
  datatype IdPair = IdPair(id: nat, providerId: string)

  /** `getTransactionsByTag`: the inner join of `transaction` with the link
      table, restricted to one tag. Rows come back in no particular order,
      so the result is a set. */
  function GetTransactionsByTag(s: Store, tag: TagId): (r: set<IdPair>)
    ensures forall p :: p in r <==>
      p.providerId in s.transactions.rows && s.transactions.rows[p.providerId].id == p.id
      && (p.id, tag) in s.transactionTags
  {
    set k | k in s.transactions.rows && (s.transactions.rows[k].id, tag) in s.transactionTags
      :: IdPair(s.transactions.rows[k].id, k)
  }

  /** `getTransactionByProviderId`, first row: the surrogate id, if the
      transaction is stored. */
  function GetTransactionByProviderId(s: Store, providerId: string): (r: Option<nat>)
    ensures r.Some? <==> providerId in s.transactions.rows
    ensures r.Some? ==> r.value == s.transactions.rows[providerId].id
  {
    if providerId in s.transactions.rows then Some(s.transactions.rows[providerId].id) else None
  }

  /** `getTransactionsByCategory`: every transaction whose `category_id` is
      `category`, soft-deleted ones included. */
  function GetTransactionsByCategory(s: Store, category: CategoryId): (r: set<IdPair>)
    ensures forall p :: p in r <==>
      p.providerId in s.transactions.rows && s.transactions.rows[p.providerId].id == p.id
      && s.transactions.rows[p.providerId].row.categoryId == Some(category)
  {
    set k | k in s.transactions.rows && s.transactions.rows[k].row.categoryId == Some(category)
      :: IdPair(s.transactions.rows[k].id, k)
  }

  /** `updateTransactionTag`: a plain insert into the link table, refused
      when the pair is already there or either side does not exist. */
  function UpdateTransactionTag(s: Store, id: nat, tag: TagId): (r: Result<Store>)
    ensures r.Ok? <==> (id, tag) !in s.transactionTags && id in TransactionIds(s) && tag in s.tags
    ensures r.Ok? ==> r.value.transactionTags == s.transactionTags + {(id, tag)}
    ensures r.Ok? ==> r.value.(transactionTags := s.transactionTags) == s
  {
    if (id, tag) in s.transactionTags then Err(DuplicateKey)
    else if id !in TransactionIds(s) || tag !in s.tags then Err(TagLinkForeignKey)
    else Ok(s.(transactionTags := s.transactionTags + {(id, tag)}))
  }

  /** `deleteTransactionTag`: removes the pair, if it is there. */
  function DeleteTransactionTag(s: Store, id: nat, tag: TagId): (r: Store)
    ensures r.transactionTags == s.transactionTags - {(id, tag)}
    ensures r.(transactionTags := s.transactionTags) == s
  {
    s.(transactionTags := s.transactionTags - {(id, tag)})
  }

  /** The row `UPDATE transaction SET …` writes: an `updatedBy` of `None`
      (undefined) leaves `updated_by` as it was. */
  function Recategorised(row: TransactionRow, category: Option<CategoryId>, updatedBy: Option<string>, now: Time): TransactionRow
  {
    row.(categoryId := category, updatedAt := Some(now),
         updatedBy := if updatedBy.Some? then updatedBy else row.updatedBy)
  }

  function RecategoriseWhere(t: Table<TransactionRow>, id: nat, category: Option<CategoryId>,
                             updatedBy: Option<string>, now: Time): (r: Table<TransactionRow>)
    ensures r.rows.Keys == t.rows.Keys && r.next == t.next
  {
    Table(map k | k in t.rows :: if t.rows[k].id == id then Keyed(id, Recategorised(t.rows[k].row, category, updatedBy, now)) else t.rows[k],
          t.next)
  }

  /** `updateTransactionCategory`: a falsy category clears `category_id`;
      a category that does not exist is refused when a row is updated. */
  function UpdateTransactionCategory(s: Store, id: nat, category: Option<CategoryId>, updatedBy: Option<string>, now: Time): (r: Result<Store>)
    ensures r.Err? <==> Truthy(category) && category.value !in s.categories && id in TransactionIds(s)
  {
    var c := OrNull(category);
    if c.Some? && c.value !in s.categories && id in TransactionIds(s) then Err(CategoryForeignKey)
    else Ok(s.(transactions := RecategoriseWhere(s.transactions, id, c, updatedBy, now)))
  }

  /** The rows `Enumerate` returns, in some order: each once. */
  predicate Lists<T(==)>(xs: seq<T>, elems: set<T>)
  {
    && (forall i :: 0 <= i < |xs| ==> xs[i] in elems)
    && (forall x :: x in elems ==> x in xs)
    && (forall i, j :: 0 <= i < j < |xs| ==> xs[i] != xs[j])
  }

  /** A result set as the driver returns it: an array in an order the
      model does not fix. */
  method Enumerate<T(==)>(elems: set<T>) returns (xs: seq<T>)
    ensures Lists(xs, elems)
  {
    xs := [];
    var rest := elems;
    while rest != {}
      invariant rest <= elems
      invariant forall i :: 0 <= i < |xs| ==> xs[i] in elems && xs[i] !in rest
      invariant forall x :: x in elems ==> x in rest || x in xs
      invariant forall i, j :: 0 <= i < j < |xs| ==> xs[i] != xs[j]
      decreases rest
    {
      var x :| x in rest;
      xs := xs + [x];
      rest := rest - {x};
    }
  }

  // ---------------------------------------------------------------------
  // Properties

  /** Unlinking a pair that was just linked gives back the old store, and
      linking a pair that was just unlinked gives back the store it was
      taken from. */
  lemma TagLinkRoundTrip(s: Store, id: nat, tag: TagId)
    ensures UpdateTransactionTag(s, id, tag).Ok? ==> DeleteTransactionTag(UpdateTransactionTag(s, id, tag).value, id, tag) == s
    ensures Valid(s) && (id, tag) in s.transactionTags ==> UpdateTransactionTag(DeleteTransactionTag(s, id, tag), id, tag) == Ok(s)
  {
    if Valid(s) && (id, tag) in s.transactionTags {
      var d := DeleteTransactionTag(s, id, tag);
      assert TransactionIds(d) == TransactionIds(s);
      assert d.(transactionTags := d.transactionTags + {(id, tag)}) == s;
    }
  }

  lemma TagLinkValid(s: Store, id: nat, tag: TagId)
    requires Valid(s)
    ensures UpdateTransactionTag(s, id, tag).Ok? ==> Valid(UpdateTransactionTag(s, id, tag).value)
    ensures Valid(DeleteTransactionTag(s, id, tag))
  {
    var d := DeleteTransactionTag(s, id, tag);
    assert TransactionIds(d) == TransactionIds(s) && AccountIds(d) == AccountIds(s);
    if UpdateTransactionTag(s, id, tag).Ok? {
      var u := UpdateTransactionTag(s, id, tag).value;
      assert TransactionIds(u) == TransactionIds(s) && AccountIds(u) == AccountIds(s);
    }
  }

  /** The rows `updateTransactionCategory` touches: those with that id. */
  lemma UpdateTransactionCategoryRows(s: Store, id: nat, category: Option<CategoryId>, updatedBy: Option<string>, now: Time)
    requires UpdateTransactionCategory(s, id, category, updatedBy, now).Ok?
    ensures var r := UpdateTransactionCategory(s, id, category, updatedBy, now).value;
      && r.(transactions := s.transactions) == s
      && r.transactions.rows.Keys == s.transactions.rows.Keys && r.transactions.next == s.transactions.next
      && (forall k :: k in s.transactions.rows && s.transactions.rows[k].id != id ==> r.transactions.rows[k] == s.transactions.rows[k])
      && (forall k :: k in s.transactions.rows && s.transactions.rows[k].id == id ==>
            var old_ := s.transactions.rows[k].row;
            var new_ := r.transactions.rows[k].row;
            && r.transactions.rows[k].id == id
            && new_.categoryId == (if Truthy(category) then category else None)
            && new_.updatedAt == Some(now)
            && new_.updatedBy == (if updatedBy.Some? then updatedBy else old_.updatedBy)
            && new_.(categoryId := old_.categoryId, updatedAt := old_.updatedAt, updatedBy := old_.updatedBy) == old_)
  {
    var r := UpdateTransactionCategory(s, id, category, updatedBy, now).value;
    assert r.transactions == RecategoriseWhere(s.transactions, id, OrNull(category), updatedBy, now);
  }

  /** `updateTransactionCategory` keeps a valid store valid: the category
      it sets exists, and no surrogate id changes. */
  lemma UpdateTransactionCategoryValid(s: Store, id: nat, category: Option<CategoryId>, updatedBy: Option<string>, now: Time)
    requires Valid(s)
    requires UpdateTransactionCategory(s, id, category, updatedBy, now).Ok?
    ensures Valid(UpdateTransactionCategory(s, id, category, updatedBy, now).value)
  {
    var c := OrNull(category);
    var t := RecategoriseWhere(s.transactions, id, c, updatedBy, now);
    assert UpdateTransactionCategory(s, id, category, updatedBy, now).value == s.(transactions := t);
    assert c.Some? ==> c.value in s.categories || id !in TransactionIds(s);
    forall k | k in t.rows && t.rows[k].row.categoryId.Some?
      ensures t.rows[k].row.categoryId.value in s.categories
    {
      if s.transactions.rows[k].id == id {
        assert id in TransactionIds(s);
      }
    }
    RewriteTransactionsValid(s, t);
  }

  /** After `updateTransactionCategory` succeeds, the row with that id has
      the new category (`None` for a falsy one), `updated_at` and, when
      given, `updated_by`; every other row, and every other table, is as
      it was; and the store stays valid. */
  lemma UpdateTransactionCategoryEffect(s: Store, id: nat, category: Option<CategoryId>, updatedBy: Option<string>, now: Time)
    requires Valid(s)
    requires UpdateTransactionCategory(s, id, category, updatedBy, now).Ok?
    ensures var r := UpdateTransactionCategory(s, id, category, updatedBy, now).value;
      && r.(transactions := s.transactions) == s
      && r.transactions.rows.Keys == s.transactions.rows.Keys && r.transactions.next == s.transactions.next
      && (forall k :: k in s.transactions.rows && s.transactions.rows[k].id != id ==> r.transactions.rows[k] == s.transactions.rows[k])
      && (forall k :: k in s.transactions.rows && s.transactions.rows[k].id == id ==>
            var old_ := s.transactions.rows[k].row;
            var new_ := r.transactions.rows[k].row;
            && r.transactions.rows[k].id == id
            && new_.categoryId == (if Truthy(category) then category else None)
            && new_.updatedAt == Some(now)
            && new_.updatedBy == (if updatedBy.Some? then updatedBy else old_.updatedBy)
            && new_.(categoryId := old_.categoryId, updatedAt := old_.updatedAt, updatedBy := old_.updatedBy) == old_)
      && Valid(r)
  {
    UpdateTransactionCategoryRows(s, id, category, updatedBy, now);
    UpdateTransactionCategoryValid(s, id, category, updatedBy, now);
  }

  /** Moving a transaction to a category makes the category query return
      it; moving it away (or clearing it) makes the query drop it. */
  lemma RecategorisedIsQueried(s: Store, pid: string, category: Option<CategoryId>, updatedBy: Option<string>, now: Time, c: CategoryId)
    requires Valid(s) && pid in s.transactions.rows
    requires UpdateTransactionCategory(s, s.transactions.rows[pid].id, category, updatedBy, now).Ok?
    ensures var r := UpdateTransactionCategory(s, s.transactions.rows[pid].id, category, updatedBy, now).value;
      IdPair(s.transactions.rows[pid].id, pid) in GetTransactionsByCategory(r, c) <==> Truthy(category) && category.value == c
  {
    UpdateTransactionCategoryEffect(s, s.transactions.rows[pid].id, category, updatedBy, now);
  }
}

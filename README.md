# afinia ingest — Dafny model

This project models the ingestion and reconciliation service of afinia
(`apps/ingest`). The service copies a customer's Up bank data into a
Postgres store. It has four parts:

- It walks the provider's paginated listings: accounts, categories, tags
  and transactions.
- It upserts each page into the store. For transactions, it also fans a
  page out into tag links, hold info, round-ups and cashback rows.
- It soft-deletes transactions.
- The nightly `syncData` job reconciles two things with the provider's
  filtered listings, using `compareProviderAndDb`: the tag links stored
  for each tag, and the category stored for each transaction.

There is also a webhook endpoint. It checks the signature and the body
and then hands the event on.

The store is a value, `Schema.Store`, and every SQL statement is a
function from a store to a `Result<Store>`. `Err` is the error the
database or the driver raises. A step that can fail after it has already
written returns `Run<S>`, which is `Done(state)` or `Failed(state,
reason)`; both carry the store as it is afterwards, because pages commit
one by one. The job entry points are methods with loops, matching the
`for … of` and `Promise.all` loops of the source, and each one is proved
equal to, or constrained by, a specification function.

Modules, one per core file or concern:

- `Wrappers`: `Option`, `Result`, `Run`, and JavaScript truthiness
  (`Truthy`, `OrNull`).
- `Upsert`: generic `INSERT … ON CONFLICT DO UPDATE` over a table keyed by
  provider id, with an identity counter for surrogate ids.
- `Schema`: the tables of `db/schema.ts`, the referential invariant
  `Valid`, the tag cascade, and the `transaction_external` view.
- `Fetch`: `getNextPage` over a finite chain of responses, the rate-limit
  test (`parseInt(…, 10) === 0`), `JSON.stringify` of a string, and
  `signRequestBody`.
- `Compare`: `compareProviderAndDb` with `Promise.allSettled` semantics.
- `Queries`: `db/queries/*.ts`.
- `Accounts`, `Categories`, `Tags`: `processAccounts`, `processCategories`,
  `processTags`.
- `Transactions`: `upsertTransactions`, `deleteTransaction`,
  `processTransactions` and `processTransaction`.
- `TransactionFacts`, `PageFacts`, `TransactionRuns`: what one page does
  to rows, links and details, validity, idempotence, and soft deletes.
- `Sync`: `syncData` (`updateTransaction`, `syncTaggedTransactions`,
  `syncCategorisedTransactions`, `handler`).
- `Webhook`: `processWebhookEvent.ts`.

Where the code and its description differ, the model follows the code:

- The webhook signs `JSON.stringify(event.body)`. The body is the raw
  string, so what is signed is the quoted, escaped string, not the
  payload bytes.
- `processWebhookEvent` is handed the body string where a callback object
  is expected. The `data` of a string is always `undefined`, so every
  accepted event raises the "No webhook data found" alert. The event never
  reaches the transaction processor.
- `syncTaggedTransactions` and `syncCategorisedTransactions` read only the
  first page of `/tags` and of `/categories`.
- A first page of `/tags` or `/categories` that has a body but no `data`
  makes `data.length` throw outside any `try`. The handler then rejects,
  and the later steps do not run.
- If the filtered transaction request returns no data, the provider's id
  list is empty. The reconciliation then unlinks every stored link of that
  tag, or clears every stored transaction of that category.
- `updateTransaction` treats an unknown provider id as a fulfilled
  callback: it alerts and resolves. Such an id counts towards `inserted`
  or `deleted`.
- The writes inside the `db.transaction` callback of `upsertTransactions`
  go through `db`, not `tx`. The rollback therefore undoes nothing, and a
  failure after the upsert keeps the rows already written.

## Model

| member | source | states |
|---|---|---|
| Wrappers.OrNull | apps/ingest/src/provider/up/modules/processTransactions.ts:126-140 | `x \|\| null` on an optional string: a value is kept exactly when it is truthy (present and non-empty), and then unchanged |
| Wrappers.OrNullInt | apps/ingest/src/provider/up/modules/processTransactions.ts:141 | `x \|\| null` on an optional number: kept exactly when present and non-zero, and then unchanged |
| Upsert.UpsertRows | apps/ingest/src/provider/up/modules/processAccounts.ts:33-50 | a batch upsert succeeds exactly when the batch is non-empty and its conflict keys are distinct; otherwise it fails with the empty-VALUES error or the "cannot affect row a second time" error |
| Upsert.UpsertAllFrame | apps/ingest/src/provider/up/modules/processAccounts.ts:33-50 | the identity advances once per proposed row; the keys become the old keys plus the batch keys; rows outside the batch are untouched |
| Upsert.UpsertAllRows | apps/ingest/src/provider/up/modules/processAccounts.ts:33-50 | with distinct keys, an existing row keeps its surrogate id and takes the update; a new row gets id `next + i` and the inserted values |
| Upsert.UpsertAllAt | apps/ingest/src/provider/up/modules/processAccounts.ts:33-50 | for one batch member with distinct keys: its key is stored, keeping the old surrogate id with the update applied, or taking `next + j` with the insert form |
| Upsert.UpsertAllKeepsIds | apps/ingest/src/provider/up/modules/processAccounts.ts:36-49 | a conflict never changes an existing row's surrogate id |
| Upsert.UpsertRowWellFormed | apps/ingest/src/db/schema.ts:42-63 | one upsert keeps surrogate ids unique and below the identity counter |
| Upsert.UpsertAllWellFormed | apps/ingest/src/db/schema.ts:42-63 | a whole batch keeps surrogate ids unique and below the identity counter |
| Upsert.UpsertAllReplay | apps/ingest/src/provider/up/modules/processTransactions.ts:174-211 | replaying a batch with the same keys, whose update overrides the first batch's update and insert, leaves the rows the replay alone leaves; only the identity moves on |
| Upsert.UpsertAllReplayKeys | apps/ingest/src/provider/up/modules/processTransactions.ts:174-211 | a replay with the same keys ends with the key set of the replay alone |
| Upsert.UpsertAllReplayKey | apps/ingest/src/provider/up/modules/processTransactions.ts:174-211 | at each key the replayed table holds the row of the replay alone |
| Upsert.UpsertAllReplayAt | apps/ingest/src/provider/up/modules/processTransactions.ts:174-211 | at the key of each batch row the replayed table holds the row of the replay alone |
| Upsert.SameKeys | apps/ingest/src/provider/up/modules/processTransactions.ts:174-211 | two batches with the same keys position by position have the same key set, and the second has distinct keys when the first does |
| Schema.EmptyStoreValid | apps/ingest/src/db/schema.ts:42-244 | the empty database satisfies every key and foreign-key constraint |
| Schema.DeleteTagsWhere | apps/ingest/src/provider/up/modules/processTags.ts:33-36 | deleting tags removes exactly those tags; the `ON DELETE CASCADE` removes exactly their links; no other table changes |
| Schema.DeleteTagsWhereValid | apps/ingest/src/db/schema.ts:220-244 | the cascade keeps every foreign key of `transaction_tag` satisfied |
| Schema.TransactionExternalRows | apps/ingest/src/db/schema.ts:252-284 | the view lists exactly the stored transactions that are categorisable and not soft-deleted; each row carries the transaction, its category name and its parent category, when set |
| Schema.RewriteTransactionsValid | apps/ingest/src/db/schema.ts:89-154 | rewriting transaction rows in place, with each row keeping its surrogate id and accounts and any category stored, keeps the store valid |
| Fetch.TrimStart | apps/ingest/src/provider/up/utils/fetch.ts:26 | `parseInt` skips leading white space: the result is a suffix of the input and does not start with white space |
| Fetch.LeadingDigits | apps/ingest/src/provider/up/utils/fetch.ts:26 | the longest digit prefix: all digits, a prefix of the input, and followed by a non-digit or the end |
| Fetch.DigitsValueZero | apps/ingest/src/provider/up/utils/fetch.ts:26 | a numeral's value is 0 exactly when all its digits are `0` |
| Fetch.ExhaustedIffZeroNumeral | apps/ingest/src/provider/up/utils/fetch.ts:26 | the rate limit counts as exhausted exactly when the header is non-empty and its numeral prefix is one or more zeros |
| Fetch.PageFault | apps/ingest/src/provider/up/utils/fetch.ts:25-45 | a response is usable exactly when the rate limit is not exhausted, the status is ok and the body parsed; an exhausted rate limit wins over the other two errors |
| Fetch.GetNextPage | apps/ingest/src/provider/up/utils/fetch.ts:13-54 | the recursive fetch loop computes exactly the `Walk` specification |
| Fetch.WalkListing | apps/ingest/src/provider/up/modules/processAccounts.ts:57-72 | first page, then the linked pages from page 2 onward; computes exactly `ListingWalk` |
| Fetch.WalkIsReplay | apps/ingest/src/provider/up/utils/fetch.ts:47-53 | the state after a walk is the callback replayed over the recorded page calls, and a completed walk replays to completion |
| Fetch.WalkCallsFromChain | apps/ingest/src/provider/up/utils/fetch.ts:47-49 | each page call is a page's `data`, numbered from the starting page |
| Fetch.WalkCallsInOrder | apps/ingest/src/provider/up/utils/fetch.ts:51-53 | page numbers of successive callback calls strictly increase |
| Fetch.WalkWellFormed | apps/ingest/src/provider/up/utils/fetch.ts:47-53 | on a fault-free chain with a callback that never fails, the walk completes and calls the callback on every page with data, in order |
| Fetch.DataCallsCoverPages | apps/ingest/src/provider/up/utils/fetch.ts:47-49 | every page with data appears among those calls, with its own page number |
| Fetch.WalkStopsAtFault | apps/ingest/src/provider/up/utils/fetch.ts:26-45 | no page at or after a faulty response is processed; if the walk reaches it, it fails with that response's error |
| Fetch.WalkEndsAtLastLink | apps/ingest/src/provider/up/utils/fetch.ts:51-53 | a usable page without a `next` link ends the walk; later responses are never requested |
| Fetch.WalkPreserves | apps/ingest/src/provider/up/utils/fetch.ts:47-53 | an invariant kept by every page callback holds after the walk, whether it completes or fails |
| Fetch.ListingPreserves | apps/ingest/src/provider/up/modules/processAccounts.ts:60-72 | the same for a listing: the first page plus the walk |
| Fetch.EscapeChar | apps/ingest/src/provider/up/utils/fetch.ts:63 | `JSON.stringify` escapes a code point exactly when it is a quote, a backslash or a control character, and leaves the rest as they are |
| Fetch.SignRequestBody | apps/ingest/src/provider/up/utils/fetch.ts:62-63 | an absent body is refused; a present one is signed as the HMAC of the secret and `JSON.stringify(body)` |
| Fetch.EscapeCharPrefixFree | apps/ingest/src/provider/up/utils/fetch.ts:63 | escapes are prefix-free: an escaped code point followed by any text determines both |
| Fetch.EscapeStringInjective | apps/ingest/src/provider/up/utils/fetch.ts:63 | escaping a string is injective |
| Fetch.JsonStringifyInjective | apps/ingest/src/provider/up/utils/fetch.ts:63 | distinct bodies are signed as distinct messages |
| Compare.Dedup | apps/ingest/src/provider/up/utils/compare.ts:33-34 | `new Set(xs)`: the same members as `xs`, each once |
| Compare.Without | apps/ingest/src/provider/up/utils/compare.ts:37 | the members of `xs` not in `ys`, distinct when `xs` is |
| Compare.Difference | apps/ingest/src/provider/up/utils/compare.ts:33-46 | `Array.from(set(xs).difference(set(ys)))`: exactly the members of `xs` not in `ys`, each once |
| Compare.Settle | apps/ingest/src/provider/up/utils/compare.ts:38-43 | `allSettled`: counts the fulfilled callbacks, never more than were issued; a rejected callback leaves the state unchanged |
| Compare.InsertCalls | apps/ingest/src/provider/up/utils/compare.ts:38-40 | one insert call per member to insert, in order |
| Compare.DeleteCalls | apps/ingest/src/provider/up/utils/compare.ts:47-49 | one delete call per member to delete, in order |
| Compare.SettleAll | apps/ingest/src/provider/up/utils/compare.ts:38-43 | the settle loop computes exactly `Settle` |
| Compare.CompareProviderAndDb | apps/ingest/src/provider/up/utils/compare.ts:19-55 | the method computes exactly the `Reconcile` specification |
| Compare.CallsShape | apps/ingest/src/provider/up/utils/compare.ts:36-49 | inserts come before deletes, every call is issued once, and each call belongs to its list |
| Compare.CallsMembers | apps/ingest/src/provider/up/utils/compare.ts:36-49 | an insert call is issued exactly for each member of the insert list, and a delete call exactly for each member of the delete list |
| Compare.CallsOrdered | apps/ingest/src/provider/up/utils/compare.ts:36-49 | with distinct lists, no call is issued twice and no insert follows a delete |
| Compare.ReconcileCalls | apps/ingest/src/provider/up/utils/compare.ts:30-52 | exactly provider-only items are inserted and exactly db-only items deleted, each once, all inserts before the first delete |
| Compare.ReconcileEmpty | apps/ingest/src/provider/up/utils/compare.ts:30-32 | two empty lists return zero counts and change nothing |
| Compare.SettleAllSucceed | apps/ingest/src/provider/up/utils/compare.ts:41-43 | when every callback fulfils, the count is the number of items |
| Compare.ReconcileCounts | apps/ingest/src/provider/up/utils/compare.ts:41-54 | `inserted` and `deleted` are at most the sizes of the two set differences, and equal to them when the callbacks never reject |
| Queries.GetTransactionsByTag | apps/ingest/src/db/queries/transaction.ts:5-16 | exactly the `(id, providerId)` pairs of stored transactions linked to the tag |
| Queries.GetTransactionByProviderId | apps/ingest/src/db/queries/transaction.ts:23-27 | the surrogate id of the transaction with that provider id, or nothing if there is none |
| Queries.GetTransactionsByCategory | apps/ingest/src/db/queries/transaction.ts:34-41 | exactly the pairs of stored transactions whose category is the given one |
| Queries.UpdateTransactionTag | apps/ingest/src/db/queries/transaction.ts:49-53 | the link insert succeeds exactly when the link is new and both foreign keys exist; then it adds just that link |
| Queries.DeleteTransactionTag | apps/ingest/src/db/queries/transaction.ts:81-89 | removes exactly that link and nothing else |
| Queries.RecategoriseWhere | apps/ingest/src/db/queries/transaction.ts:66-73 | an `UPDATE … WHERE transaction_id = id` keeps the set of rows and the identity |
| Queries.UpdateTransactionCategory | apps/ingest/src/db/queries/transaction.ts:61-73 | fails exactly when a truthy category is not stored and the row exists (foreign key) |
| Queries.UpdateTransactionCategoryRows | apps/ingest/src/db/queries/transaction.ts:61-73 | on success only the transaction table changes, its keys and identity stay; rows with another id are unchanged; the row with that id gets `category \|\| null`, `updated_at` now, `updated_by` if given, and nothing else |
| Queries.UpdateTransactionCategoryValid | apps/ingest/src/db/schema.ts:89-154 | a successful recategorisation keeps the store valid |
| Queries.Enumerate | apps/ingest/src/db/queries/transaction.ts:5-16 | a query result as a list: each member of the set exactly once, order unspecified |
| Queries.TagLinkRoundTrip | apps/ingest/src/db/queries/transaction.ts:49-89 | linking then unlinking restores the store; unlinking then relinking a stored link restores it |
| Queries.TagLinkValid | apps/ingest/src/db/schema.ts:220-244 | linking and unlinking keep the store valid |
| Queries.UpdateTransactionCategoryEffect | apps/ingest/src/db/queries/transaction.ts:61-73 | only the row with that id changes: its category becomes `category \|\| null`, `updated_at` becomes now, and `updated_by` is set only when given; nothing else changes, and the store stays valid |
| Queries.RecategorisedIsQueried | apps/ingest/src/db/queries/transaction.ts:34-73 | after recategorising, the transaction is listed under category `c` exactly when the new category is `c` and truthy |
| Accounts.ProcessAccounts | apps/ingest/src/provider/up/modules/processAccounts.ts:54-77 | the job computes exactly the listing walk with the account upsert per page; errors are swallowed, keeping the pages already written |
| Accounts.UpsertAccountsEffect | apps/ingest/src/provider/up/modules/processAccounts.ts:15-50 | a page succeeds exactly when non-empty with distinct ids, and then changes only accounts. New accounts get the remapped row; existing ones keep id, `created_at` and `deleted_at` and take the listed columns plus the stamp. A failed page writes nothing |
| Accounts.UpsertAccountRow | apps/ingest/src/provider/up/modules/processAccounts.ts:15-50 | each account of the page is stored with its details and the stamp; an existing one keeps its surrogate id, `created_at` and `deleted_at`; a new one is the inserted row |
| Accounts.UpsertAccountsValid | apps/ingest/src/provider/up/modules/processAccounts.ts:33-50 | a page keeps the store valid |
| Accounts.UpsertAccountsIdempotent | apps/ingest/src/provider/up/modules/processAccounts.ts:33-50 | upserting the same page again at any later time succeeds and leaves the account rows that one upsert at that later time leaves, and no other table changes; at the same time it changes no row |
| Accounts.UpsertAccountsReplay | apps/ingest/src/provider/up/modules/processAccounts.ts:15-50 | the account insert and conflict update at a later time override what an earlier run wrote: `created_at` comes from the API and the rest is refreshed |
| Accounts.ProcessAccountsKeeps | apps/ingest/src/provider/up/modules/processAccounts.ts:54-77 | the job never removes an account or changes its surrogate id, and writes no other table |
| Accounts.ProcessAccountsValid | apps/ingest/src/provider/up/modules/processAccounts.ts:54-77 | the job keeps the store valid |
| Categories.UpsertCategoryNames | apps/ingest/src/provider/up/modules/processCategories.ts:21-29 | the name upsert succeeds exactly when the list is non-empty with distinct ids |
| Categories.LastParentOf | apps/ingest/src/provider/up/modules/processCategories.ts:33-57 | a category gets a parent exactly when some listed category names it as a child; the parent is the last such category in list order |
| Categories.UpsertCategories | apps/ingest/src/provider/up/modules/processCategories.ts:9-59 | the loops compute exactly names-then-parents, and fail exactly when the name upsert fails |
| Categories.WithParentsStep | apps/ingest/src/provider/up/modules/processCategories.ts:36-57 | the parent loop handles one parent category at a time, in list order |
| Categories.UpdateChildren | apps/ingest/src/provider/up/modules/processCategories.ts:41-56 | the inner loop computes exactly `WithParent`: each stored child whose parent differs takes the parent |
| Categories.ProcessCategories | apps/ingest/src/provider/up/modules/processCategories.ts:61-71 | with a usable first page, only the categories change, as `Categorised` says; otherwise, or on error, nothing changes |
| Categories.WithNamesEffect | apps/ingest/src/provider/up/modules/processCategories.ts:21-29 | the keys gain the listed ids; listed names are taken; parents are kept, and new rows have none; unlisted rows are untouched |
| Categories.WithNamesKeys | apps/ingest/src/provider/up/modules/processCategories.ts:21-29 | the name upsert adds exactly the listed ids to the keys |
| Categories.WithNamesUnlisted | apps/ingest/src/provider/up/modules/processCategories.ts:21-29 | a stored category the page does not list keeps its row |
| Categories.WithNamesParents | apps/ingest/src/provider/up/modules/processCategories.ts:24-28 | the conflict update sets only the name: a stored parent is kept, and an inserted row has none |
| Categories.WithNamesNames | apps/ingest/src/provider/up/modules/processCategories.ts:21-29 | with distinct ids, each listed category takes its listed name |
| Categories.CategorisedEffect | apps/ingest/src/provider/up/modules/processCategories.ts:21-57 | after the job: listed names are taken; the parent is the last listed parent, else the stored one; categories neither listed nor named as children are untouched |
| Categories.CategorisedValid | apps/ingest/src/db/schema.ts:65-81 | the category job keeps the store valid, parent references included |
| Categories.CategorisedIdempotent | apps/ingest/src/provider/up/modules/processCategories.ts:21-57 | running the category job twice on the same page equals running it once |
| Tags.UpsertTags | apps/ingest/src/provider/up/modules/processTags.ts:10-22 | `ON CONFLICT DO NOTHING`: a non-empty page adds exactly its tag ids; an empty one is refused |
| Tags.DeleteTags | apps/ingest/src/provider/up/modules/processTags.ts:24-41 | an empty set deletes nothing; otherwise only tags in the set remain, the links to deleted tags go, and no other table changes |
| Tags.ProcessTags | apps/ingest/src/provider/up/modules/processTags.ts:43-77 | the job computes exactly `TagsRun`: walk and collect, then delete the unlisted tags only after a complete walk |
| Tags.WalkCollates | apps/ingest/src/provider/up/modules/processTags.ts:49-70 | during the walk, the stored tags are exactly the old tags plus the tags seen, and nothing else changes |
| Tags.PageTagIds | apps/ingest/src/provider/up/modules/processTags.ts:49-56 | the tag ids of the pages handed to the callback: each page's ids are included, and nothing else |
| Tags.ReplaySeen | apps/ingest/src/provider/up/modules/processTags.ts:49-56 | a completed replay of the page calls adds exactly their tag ids to the collected set |
| Tags.SeenIsPageTags | apps/ingest/src/provider/up/modules/processTags.ts:43-70 | after a complete walk, the collected `tagSet` is exactly the set of tag ids on the walked pages |
| Tags.ProcessTagsMirrors | apps/ingest/src/provider/up/modules/processTags.ts:43-77 | after a complete walk whose pages listed tags, the stored tags are exactly the tag ids on those pages and only links to them remain. Otherwise no tag or link is lost. No other table changes |
| Tags.ProcessTagsValid | apps/ingest/src/provider/up/modules/processTags.ts:43-77 | the job keeps the store valid |
| Transactions.Remap | apps/ingest/src/provider/up/modules/processTransactions.ts:68-153 | a transaction is skipped exactly when its account, or its truthy transfer account, is not stored; a kept one keeps its provider id |
| Transactions.KeptOf | apps/ingest/src/provider/up/modules/processTransactions.ts:159-161 | `map(remap).filter(Boolean)`: at most as many rows as transactions, each from one of them |
| Transactions.TxMap | apps/ingest/src/provider/up/modules/processTransactions.ts:66 | the map from provider id to transaction has exactly the page's ids as keys |
| Transactions.UpsertTransactionRows | apps/ingest/src/provider/up/modules/processTransactions.ts:176-211 | on success, the transaction table is the generic upsert of the kept rows and nothing else changes |
| Transactions.LinkRows | apps/ingest/src/provider/up/modules/processTransactions.ts:225-234 | exactly the links from the returned id to the listed tags that are stored |
| Transactions.KeptReturned | apps/ingest/src/provider/up/modules/processTransactions.ts:220-222 | every row `RETURNING` gives back is found in the page's transaction map, so the rollback branch is never taken |
| Transactions.RemapPage | apps/ingest/src/provider/up/modules/processTransactions.ts:95-161 | the remap loop computes the kept rows and the missing-account and missing-category sets |
| Transactions.CollectLinks | apps/ingest/src/provider/up/modules/processTransactions.ts:225-234 | the tag loop collects exactly `LinkRows` |
| Transactions.CollectSubRows | apps/ingest/src/provider/up/modules/processTransactions.ts:213-280 | the fan-out loop collects exactly `SubRowsOf` |
| Transactions.FanOut | apps/ingest/src/provider/up/modules/processTransactions.ts:282-333 | the four sub-inserts apply exactly the collected rows |
| Transactions.UpsertTransactions | apps/ingest/src/provider/up/modules/processTransactions.ts:39-350 | one page computes exactly `UpsertTransactionsPage` |
| Transactions.Commit | apps/ingest/src/provider/up/modules/processTransactions.ts:174-333 | the upsert statement and the fan-out compute exactly `CommitPage`: an upsert error fails the page with the store unchanged |
| Transactions.ProcessTransactions | apps/ingest/src/provider/up/modules/processTransactions.ts:364-464 | an exhausted first rate limit fails at once with "Rate limit exceeded" and writes nothing; otherwise the job is the listing walk over the page function |
| Transactions.ProcessTransaction | apps/ingest/src/provider/up/modules/processTransactions.ts:466-520 | a failed or empty fetch writes nothing; missing `data` throws; `delete` soft-deletes, and `insert` runs one page with that transaction |
| TransactionFacts.KeptOfShape | apps/ingest/src/provider/up/modules/processTransactions.ts:159-161 | with distinct page ids, the kept rows have distinct keys, exactly the ids whose remap kept them, each row the remap of its transaction |
| TransactionFacts.KeptDistinct | apps/ingest/src/provider/up/modules/processTransactions.ts:159-161 | with distinct page ids, the kept rows have distinct conflict keys |
| TransactionFacts.KeptKeys | apps/ingest/src/provider/up/modules/processTransactions.ts:159-161 | the kept rows' keys are exactly the ids whose remap kept them |
| TransactionFacts.KeptFromPage | apps/ingest/src/provider/up/modules/processTransactions.ts:66-161 | each kept row is the remap of the page transaction found under its own id |
| TransactionFacts.SnapshotRowsHold | apps/ingest/src/provider/up/modules/processTransactions.ts:90-120 | a kept row's account and transfer account are stored, and its category is stored or null |
| TransactionFacts.KeptRowsHold | apps/ingest/src/provider/up/modules/processTransactions.ts:159-161 | the same holds for every kept row of a page |
| TransactionFacts.UpsertKeepsTransactionKeys | apps/ingest/src/db/schema.ts:89-154 | upserting such rows keeps the transaction table's foreign keys satisfied |
| TransactionFacts.PageCommits | apps/ingest/src/provider/up/modules/processTransactions.ts:159-172 | on a valid store, a page whose transaction ids are distinct never fails (a repeated id is refused by the upsert); pages, total, processed and skipped advance by 1, the page size, the kept count and the rest |
| TransactionFacts.KeyCount | apps/ingest/src/provider/up/modules/processTransactions.ts:334 | with distinct keys there are as many keys as rows, so processed counts distinct transactions |
| TransactionFacts.PageTransactions | apps/ingest/src/provider/up/modules/processTransactions.ts:174-211 | the page's transaction table is the upsert of the kept rows |
| TransactionFacts.PageRowsFrame | apps/ingest/src/provider/up/modules/processTransactions.ts:174-211 | after a page, the rows are the old rows plus the kept ids; a row not kept is unchanged |
| TransactionFacts.SkippedNotKept | apps/ingest/src/provider/up/modules/processTransactions.ts:95-111 | a skipped transaction's id is not among the kept ids |
| TransactionFacts.PageRowKept | apps/ingest/src/provider/up/modules/processTransactions.ts:121-211 | a kept transaction is stored with its details, resolved category and the stamp. An existing row keeps its id, accounts, `created_at` and `deleted_at`; a new row gets the remapped accounts and `created_at`, and is not deleted |
| TransactionFacts.PageRowIs | apps/ingest/src/provider/up/modules/processTransactions.ts:174-211 | a kept transaction is stored after the page: an existing row keeps its surrogate id and takes the conflict update, and a new row is the remapped row |
| TransactionFacts.TxMapAt | apps/ingest/src/provider/up/modules/processTransactions.ts:66 | with distinct ids, the map finds each transaction of the page under its own id |
| PageFacts.At | apps/ingest/src/db/schema.ts:156-218 | a detail row looked up by transaction id |
| PageFacts.SubRowsBounds | apps/ingest/src/provider/up/modules/processTransactions.ts:220-272 | every collected link and detail row belongs to a returned id, and every link to a stored tag |
| PageFacts.SubRowsAt | apps/ingest/src/provider/up/modules/processTransactions.ts:220-272 | for each returned transaction: links to exactly its stored tags; a hold info, round-up and cashback row exactly when it has one, with its fields |
| PageFacts.ApplyAt | apps/ingest/src/provider/up/modules/processTransactions.ts:282-333 | the sub-inserts add a transaction's new links to the old ones and replace each of its detail rows it supplies; a detail it does not supply keeps the stored row |
| PageFacts.ApplyFrame | apps/ingest/src/provider/up/modules/processTransactions.ts:282-333 | ids not returned keep all their links and detail rows |
| PageFacts.PageStore | apps/ingest/src/provider/up/modules/processTransactions.ts:166-333 | a page with nothing kept is a no-op; otherwise the store is the row upsert followed by the sub-inserts |
| PageFacts.CommittedKept | apps/ingest/src/provider/up/modules/processTransactions.ts:213-333 | `Committed` gives each kept transaction its links and detail rows as `ApplyAt` states |
| PageFacts.CommittedFrame | apps/ingest/src/provider/up/modules/processTransactions.ts:213-333 | under `Committed`, other transactions keep their links and details |
| PageFacts.PageDetailsKept | apps/ingest/src/provider/up/modules/processTransactions.ts:213-333 | after a page, each kept transaction has its new links besides the old ones; a detail it carries replaces the stored one, and otherwise the stored one stays |
| PageFacts.PageDetailsFrame | apps/ingest/src/provider/up/modules/processTransactions.ts:213-333 | after a page, a transaction not on it keeps its links and detail rows |
| PageFacts.CommittedValid | apps/ingest/src/db/schema.ts:89-244 | `Committed` keeps the store valid and leaves accounts, categories and tags alone |
| PageFacts.PageValid | apps/ingest/src/provider/up/modules/processTransactions.ts:39-350 | any page keeps a valid store valid and never writes accounts, categories or tags |
| PageFacts.RefreshedRowLaws | apps/ingest/src/provider/up/modules/processTransactions.ts:179-206 | a conflict update overrides any earlier one, and turns a row inserted by another run into the row this run would insert |
| PageFacts.KeptRestamped | apps/ingest/src/provider/up/modules/processTransactions.ts:68-161 | against the same snapshot, a run at another time or under another process name keeps the same rows in the same order, differing only in `updated_at` and `updated_by` |
| PageFacts.SubRowsSameIds | apps/ingest/src/provider/up/modules/processTransactions.ts:213-280 | the collected links and detail rows depend only on the kept provider ids and the surrogate ids they were given |
| PageFacts.ApplySubRowsTwice | apps/ingest/src/provider/up/modules/processTransactions.ts:282-333 | applying the same sub-rows twice equals applying them once |
| PageFacts.CommittedTwice | apps/ingest/src/provider/up/modules/processTransactions.ts:174-333 | committing a page and then again at a later time, under any process name, leaves the store that the later commit alone leaves, apart from the identity counter; the snapshot is unchanged |
| PageFacts.PageIdempotent | apps/ingest/src/provider/up/modules/processTransactions.ts:39-350 | ingesting the same page again at a later time, under any process name, leaves every table as one ingest at that later time does, apart from the identity counter |
| TransactionRuns.DeleteTransactionEffect | apps/ingest/src/provider/up/modules/processTransactions.ts:352-362 | the soft delete stamps `deleted_at` and `updated_by`, keeps the id, details, category and `updated_at`, takes the row out of the view, and changes nothing else; an unknown id changes nothing |
| TransactionRuns.DeleteTransactionValid | apps/ingest/src/provider/up/modules/processTransactions.ts:352-362 | the soft delete keeps the store valid |
| TransactionRuns.DeletedStaysDeleted | apps/ingest/src/provider/up/modules/processTransactions.ts:179-206 | ingesting a soft-deleted transaction again keeps its `deleted_at`, so it stays out of the view |
| TransactionRuns.ProcessTransactionsValid | apps/ingest/src/provider/up/modules/processTransactions.ts:364-464 | the job keeps the store valid and never writes accounts, categories or tags |
| TransactionRuns.ProcessOneInsert | apps/ingest/src/provider/up/modules/processTransactions.ts:495-496 | on a valid store, the single-transaction insert never fails: a kept transaction is stored with its details, a skipped one changes nothing |
| Sync.IdsOf | apps/ingest/src/provider/up/modules/syncData.ts:80 | the provider ids of a page, one per transaction, in order |
| Sync.ReplayCollects | apps/ingest/src/provider/up/modules/syncData.ts:79-92 | pushing page after page collects the concatenation of their ids |
| Sync.RemoteIdsArePages | apps/ingest/src/provider/up/modules/syncData.ts:72-92 | the provider's id list is the ids of every page the walk processed, in order |
| Sync.UpdateTransaction | apps/ingest/src/provider/up/modules/syncData.ts:20-35 | an unknown provider id fulfils without writing; a known one runs the update on its surrogate id |
| Sync.TaggedQuery | apps/ingest/src/provider/up/modules/syncData.ts:186-191 | the link query returns exactly the transactions stored with the tag |
| Sync.LinksOnlyToTrans | apps/ingest/src/provider/up/modules/syncData.ts:192-199 | "only this tag's links change, nothing else" composes |
| Sync.LinkStep | apps/ingest/src/provider/up/modules/syncData.ts:192-195 | one insert callback links the listed transaction, if stored, and touches nothing else |
| Sync.LinkCallback | apps/ingest/src/provider/up/modules/syncData.ts:192-195 | the insert callback writes nothing for an unstored provider id and runs the link insert on the stored surrogate id otherwise |
| Sync.LinkInsertTagged | apps/ingest/src/db/queries/transaction.ts:49-53 | linking a stored transaction to a stored tag adds exactly that transaction to the tag's set |
| Sync.UnlinkStep | apps/ingest/src/provider/up/modules/syncData.ts:196-199 | one delete callback unlinks the listed transaction, if stored, and touches nothing else |
| Sync.SettleLinks | apps/ingest/src/provider/up/utils/compare.ts:38-43 | settling the insert callbacks adds exactly the stored ones among the ids to the tag |
| Sync.SettleUnlinks | apps/ingest/src/provider/up/utils/compare.ts:47-52 | settling the delete callbacks removes exactly those ids from the tag |
| Sync.LinkThenUnlink | apps/ingest/src/provider/up/utils/compare.ts:36-52 | inserts, then deletes: the tag's set becomes old + inserted − deleted |
| Sync.ReconcileTag | apps/ingest/src/provider/up/modules/syncData.ts:186-200 | after reconciliation, the tag is linked to exactly the stored transactions the provider lists, only that tag's links change, and the store stays valid |
| Sync.SyncTag | apps/ingest/src/provider/up/modules/syncData.ts:144-216 | a wrong type, an unstored tag or a failed walk changes nothing; otherwise the tag ends with exactly the provider's stored transactions, and only its links change |
| Sync.SyncTaggedTransactions | apps/ingest/src/provider/up/modules/syncData.ts:136-220 | a first `/tags` page without `data` throws before any write; otherwise every reconciled tag (first page of `/tags`, type `tags`, stored, walk complete) ends linked to exactly the provider's stored transactions; other tags keep their links; only links change |
| Sync.TagLoopStep | apps/ingest/src/provider/up/modules/syncData.ts:143-216 | one tag's sync keeps both loop facts: every reconciled tag has exactly the provider's stored transactions, and links of other tags are as before |
| Sync.SyncedTagsStep | apps/ingest/src/provider/up/modules/syncData.ts:143 | the reconciled tags grow by one listed item at a time |
| Sync.CategoryQuery | apps/ingest/src/provider/up/modules/syncData.ts:94-99 | the category query returns exactly the stored transactions of that category |
| Sync.OnlyCategoriesTrans | apps/ingest/src/provider/up/modules/syncData.ts:100-107 | "only `category_id` and `updated_at` change" composes |
| Sync.CategoryStep | apps/ingest/src/db/queries/transaction.ts:61-73 | one callback sets the listed transaction's category to `category \|\| null`, if stored, leaving other rows alone |
| Sync.CategoryCallback | apps/ingest/src/provider/up/modules/syncData.ts:100-107 | a callback writes nothing for an unstored provider id and runs `updateTransactionCategory` on the stored surrogate id otherwise, which then succeeds |
| Sync.CategoryStepRows | apps/ingest/src/db/queries/transaction.ts:61-73 | on a stored transaction, only that row changes, its category becomes `category \|\| null`, and only category and stamps change |
| Sync.RecategorisedOnly | apps/ingest/src/db/queries/transaction.ts:66-72 | the update sets the category and `updated_at` and, without `updated_by`, nothing else |
| Sync.SettleCategory | apps/ingest/src/provider/up/utils/compare.ts:38-43 | settling the callbacks gives every listed stored transaction the category and changes no other row |
| Sync.SettleCategoryValid | apps/ingest/src/provider/up/utils/compare.ts:38-43 | settling the category callbacks keeps the store valid and changes only categories and stamps |
| Sync.SettleCategoryRows | apps/ingest/src/provider/up/utils/compare.ts:38-43 | settling keeps the keys, files every listed stored transaction under `category \|\| null`, and leaves unlisted rows unchanged |
| Sync.SetThenClear | apps/ingest/src/provider/up/modules/syncData.ts:97-108 | filing under `c` then clearing: listed rows end under `c`, cleared ones have no category, the rest are unchanged |
| Sync.ReconcileCategory | apps/ingest/src/provider/up/modules/syncData.ts:94-108 | the category holds exactly the stored transactions the provider lists under it; db-only ones are cleared; rows already agreeing are untouched; each row is unchanged, cleared or filed under `c` |
| Sync.SyncCategory | apps/ingest/src/provider/up/modules/syncData.ts:49-130 | a wrong type, an unstored category or a failed walk changes nothing; otherwise the category is reconciled as `ReconcileCategory` says; only categories and stamps change |
| Sync.SyncEmptyCategory | apps/ingest/src/provider/up/modules/syncData.ts:94-108 | for the id `""`, filing writes null, so every row is unchanged or cleared |
| Sync.SyncedCategoriesStep | apps/ingest/src/provider/up/modules/syncData.ts:48 | the reconciled categories grow by one listed item at a time |
| Sync.CategoryLoopStep | apps/ingest/src/provider/up/modules/syncData.ts:48-133 | one category's sync keeps both loop facts: each change is a clearing or a filing under a reconciled category, and each filed row is listed there |
| Sync.CategoryLoopInv | apps/ingest/src/provider/up/modules/syncData.ts:48-133 | after one more child category the loop facts hold for the categories reconciled so far |
| Sync.SyncCategories | apps/ingest/src/provider/up/modules/syncData.ts:48-133 | over the child categories in order: no categories leaves the store as it was; on a valid store it stays valid, only categories and stamps change, each changed row is cleared or filed under a reconciled category, and each row under a reconciled category is listed there |
| Sync.SyncCategorisedTransactions | apps/ingest/src/provider/up/modules/syncData.ts:37-134 | a first `/categories` page without `data` throws before any write; otherwise, over the child categories: only categories and stamps change; each changed row is cleared or filed under a reconciled category; each row under a reconciled category is listed there by the provider |
| Sync.Children | apps/ingest/src/provider/up/modules/syncData.ts:43-46 | the parent-category filter keeps only categories that have a parent |
| Sync.ChildrenFiltered | apps/ingest/src/provider/up/modules/syncData.ts:43-46 | a category is kept exactly when it is listed and has a parent |
| Sync.Handler | apps/ingest/src/provider/up/modules/syncData.ts:222-229 | tags, then tagged, then categorised; a step that throws rejects the handler, so a tags page without `data` stops it after `processTags`. The store stays valid; accounts and categories are untouched; tags are as `processTags` leaves them; every reconciled tag ends linked to exactly the provider's stored transactions; against the original transactions only categories and stamps change, each change is a clearing or a filing under a reconciled child category, and each row under one of those is listed there |
| Sync.HandlerCategories | apps/ingest/src/provider/up/modules/syncData.ts:222-229 | the category step's guarantees, proved against the store after the tag steps, hold against the original store, since the tag steps change neither transactions nor categories |
| Sync.CategoriesKeepLinks | apps/ingest/src/provider/up/modules/syncData.ts:222-229 | the category sync, which changes only categories and stamps, leaves every tag's linked transactions as they were |
| Webhook.ProcessWebhookEvent | apps/ingest/src/provider/up/modules/processWebhookEvent.ts:9-17 | alerts "No webhook data found" exactly when `data` is missing, and does nothing else |
| Webhook.Handler | apps/ingest/src/provider/up/modules/processWebhookEvent.ts:19-57 | throws exactly on missing configuration or an absent body. Otherwise: 403 exactly when the header differs from the signature, checked before the body; 400 with "Bad Request" for a signed empty body; 200 for the rest, with the missing-data alert |
| Webhook.TamperedBodyForbidden | apps/ingest/src/provider/up/modules/processWebhookEvent.ts:27-37 | with an injective signer, a body changed after signing is refused with 403 and no alert |
| Webhook.UnsignedForbidden | apps/ingest/src/provider/up/modules/processWebhookEvent.ts:27-37 | a request without the signature header gets 403 |

## Left out

- Drizzle, SQL text and the Postgres driver are not modelled. Each statement is given the semantics the schema and the conflict clauses imply. An empty `VALUES` list is modelled as the error that Drizzle raises.
- Concurrency is not modelled. `Promise.all` over tags and categories runs in list order. The tag syncs touch disjoint links, so this order does not affect their proved results. Two category syncs can both write one transaction, so the last writer in list order wins.
- Notifications, console output, timings and `metrics.pages.timings` are dropped; they never change control flow.
- Each job uses one time value `now`, or `clock(page)` per page, instead of one `new Date()` per statement.
- The HTTP client, the API key header and the first `upClient.GET` are not modelled. A listing is its first envelope plus the chain of later responses; a `next` link past the end of the chain is a fetch failure.
- HMAC-SHA256 is an uninterpreted function parameter. Only its injectivity under one secret is ever assumed, in `Webhook.TamperedBodyForbidden`.
- `loadData.ts`, the `sst` and drizzle configuration, `apps/web` and `packages/common` are outside this model.
- Atomicity across statements is not modelled: the `db.transaction` callback writes through `db` and its rollback undoes nothing (see above).
- Date parsing (`new Date(attributes.createdAt)`) is not modelled: times are opaque values.
- Result order of `SELECT`s is not modelled: `Queries.Enumerate` returns any order.
- Sync.SyncTag: a walk that fails after some pages does not reconcile at all, matching the thrown error caught per tag; the partial list it collected is not used.
- PageFacts.PageDetailsKept: a transaction that no longer carries hold info, a round-up or cashback keeps the stale stored row, as the code does; nothing states that it is removed.
- Sync.SyncCategorisedTransactions: a row filed under a reconciled category is proved to be listed there, but the converse is not stated. If a transaction appears under two categories in the provider's listings, the later sync files it away from the earlier one, and nothing in the code rules that out.
- Envelopes are assumed to always carry `links`, as the API schema types them. In the per-tag and per-category syncs a response with `data` but no `links` would make `data.links.next` throw inside the `try`, leaving that tag or category unreconciled. The model cannot represent such a response: its `next: None` means "no next page".
- Compare.CompareProviderAndDb: the inserted and deleted counts are only logged by their callers; no caller branches on them.

# FinanceTracker core, modelled in Dafny

FinanceTracker is a small business finance app. Accounts can be customers, vendors or both. It also tracks products and stock, estimates, invoices and purchase orders with their line items, customer and vendor payments, and customer credits. This project models the parts of it that hold logic:

- **`DatabaseStorage`** (`storage.dfy`, records in `records.dfy`):
  - It is a class whose tables are maps from primary key to record.
  - The change events it sends are kept as an outbox of webhook payloads, oldest first.
  - The rows it inserts into `pdf_queue` are kept as a sequence.
  - Every create, update and delete method states the complete new state of what it touches: the table, the outbox and the PDF queue.
  - Every such method keeps the store's invariant `Valid()`. That invariant covers key/record agreement, unique account uids, skus and document uids, payment status only on customer payments, the shape of every sent event, and pending PDF jobs only.
  - The generated uids (`ACC-`, `EST-`, `INV-`, `PO-` plus six upper-cased characters), the product defaults, the line-total computation and the inventory figures are functions with their own contracts.
- **`WebhookService`** (`webhooks.dfy`):
  - `Dispatch` is the switch of `processWebhook`. It decides which database recompute functions are called, in order and with which argument, or raises the `TypeError` that a missing row causes.
  - `Execute` awaits those calls against an opaque database and stops at the first one that raises.
  - `convertEstimateToInvoice` and `approveCustomerPayment` are wrappers over one database function each.
- **Storage and dispatcher together** (`pipeline.dfy`):
  - Every event storage sends is dispatched without error. Events reach `processWebhook` only when `WEBHOOK_HANDLER_URL` points at the `/api/webhook` route: the default URL ends in `/webhook`, which is not that route.
  - Each kind of storage write leads to the recompute calls shown there.
  - Because storage never sends the old row, the balance-change branches for invoices, purchase orders and accounts never fire for updates made through storage. Moving a line item to another document never recomputes the document it left.
- **Client helpers:**
  - `getStatusColor`, `formatPercentChange`, `formatCurrency` and `formatDate` (`utils.dfy`);
  - the dashboard's stock badge (`inventory_status.dfy`);
  - the products page's search-and-tab filter (`products_page.dfy`);
  - the portal's avatar initials and active-tab test (`portal_layout.dfy`).

Shared pieces:

- `js_values.dfy` models the JavaScript values rows are made of: truthiness, `||`, `?.` and `===`.
- `text.dfy` holds ASCII case mapping, `includes`, `startsWith`, `split`/`join`, number formatting and code-point string order.
- `seqs.dfy` holds the `filter` of arrays, subsequences, and name-ordered listings.
- `wrappers.dfy` holds `Option` and `Result`.

Money is integer cents; JavaScript numbers appear only as integers.

## Model

| member | source | states |
|---|---|---|
| Webhooks.Dispatch | server/webhooks.ts:19-123 | the switch raises exactly for an INSERT without `row` or a DELETE without `old_row` of an invoice or purchase order, and the error is a TypeError; it plans at most two calls, and two only for a customer credit |
| Webhooks.ChildTableRouting | server/webhooks.ts:20-95 | line items and payments of invoices: a write calls `update_invoice_finance_metrics` once exactly when the new or the old row has a truthy `invoiceId`, with the new row's id when truthy, else the old row's; no call for other operations; the same rule for estimate line items (`estimateId`, estimate metrics) and for purchase order lines and vendor payments (`purchaseOrderId`, PO metrics) |
| Webhooks.CreditRouting | server/webhooks.ts:51-65 | a credit write calls the invoice recompute when an invoice id resolves, then the estimate recompute when an estimate id resolves, never in the other order |
| Webhooks.BalanceTableRouting | server/webhooks.ts:40-106 | invoices: INSERT recomputes the customer balance of `row.accountId`, DELETE that of `old_row.accountId`; an UPDATE only when both rows are present and `balance` differs under `!==`; purchase orders: the same rule with the vendor balance |
| Webhooks.MessageRouting | server/webhooks.ts:108-113 | messages call the product-link function with the payload id exactly on INSERT or UPDATE with a truthy `extractedData` |
| Webhooks.AccountRouting | server/webhooks.ts:115-122 | accounts call the net-balance recompute with the payload id exactly on an UPDATE with both rows whose customer or vendor balance differs; never on INSERT or DELETE |
| Webhooks.UnroutedPayloads | server/webhooks.ts:19-123 | a table the switch does not name, or an operation other than the three writes, calls nothing |
| Webhooks.Placeholders | server/webhooks.ts:163 | the placeholder list is empty exactly when there are no parameters, and otherwise starts with `$` |
| Webhooks.QueryText | server/webhooks.ts:166 | the query starts with `SELECT * FROM ` and the function name and an opening parenthesis, holds the placeholder list, and ends with `)` |
| Webhooks.PlaceholdersNumbered | server/webhooks.ts:163 | the parameter list is empty for no parameters; otherwise it splits on commas into exactly n parts `$1` … `$n`, in order |
| Webhooks.CallDatabaseFunction | server/webhooks.ts:160-176 | fails exactly when the database raises, rethrowing its message; otherwise gives the first result row, absent when there is none |
| Webhooks.CallDatabaseFunctionAsWritten | server/webhooks.ts:166 | the call as written sends the query text with no values bound, and fails exactly when the database raises on that |
| Webhooks.AsWrittenCallsFail | server/webhooks.ts:160-176 | as written, on a database that raises for a placeholder beyond the values supplied, every call with a parameter fails, since `$1` is named and no value is bound |
| Webhooks.EveryPlaceholderBound | server/webhooks.ts:163-169 | with the values bound, every placeholder `$k` the text names has 1 ≤ k ≤ n for n values |
| Webhooks.Execute | server/webhooks.ts:19-123 | the issued calls are a prefix of the planned ones, and all but the last issued call succeeded; no error exactly when every planned call succeeds, and then all were issued; an error is the last issued call's failure |
| Webhooks.ProcessWebhook | server/webhooks.ts:13-130 | a TypeError of the switch is rethrown with no call issued; otherwise the issued calls are a prefix of the plan, every issued call but the last succeeded, an error is exactly the last issued call's database failure, and the webhook succeeds exactly when every planned call does, having issued them all |
| Webhooks.FailureAbortsDispatch | server/webhooks.ts:57-63 | for a credit naming an invoice and an estimate, a failing invoice recompute is the only call issued and its error is the one rethrown |
| Webhooks.ConvertEstimateToInvoice | server/webhooks.ts:135-143 | a database error is rethrown; an empty result raises a TypeError; otherwise the result is the first row's `invoice_id` |
| Webhooks.ApproveCustomerPayment | server/webhooks.ts:148-155 | fails exactly when the database function raises, with that error |
| Records.Uid | server/storage.ts:216-217 | a uid starts with its prefix, is the prefix plus at most six characters, and those are the generated id's first characters upper-cased |
| Records.InsertedAccount | shared/schema.ts:29-34 | a new account keeps its id, uid and name; the customer and vendor flags are false unless supplied true; each balance is the supplied one or 0 |
| Records.PatchAccount | server/storage.ts:233-248 | an update writes exactly the supplied fields: each supplied field takes its new value, every field left out keeps its old one, and the id and uid never change |
| Records.UidPrefixesSeparate | server/storage.ts:373-374 | uids with different prefixes among `ACC-`, `EST-`, `INV-`, `PO-` never coincide |
| Records.UidDependsOnSixCharacters | server/storage.ts:529-530 | generated ids that agree up to case on their first six characters give the same uid |
| Records.InsertedProduct | server/storage.ts:276-290 | a falsy display name becomes the name; stock quantity is the supplied one or 0 and reorder level the supplied one or 5, as the column defaults say; sku, name, description, price and cost are kept |
| Records.PatchProduct | server/storage.ts:292-307 | an update writes exactly the supplied fields: each supplied field takes its new value, every field left out keeps its old one, and the id and sku never change |
| Records.WithInventory | server/storage.ts:327-340 | stock available is the stock quantity or 0; committed and sold stock are 0; stock value is available stock times unit cost, or 0 |
| Records.InsertedDocument | shared/schema.ts:83-162 | a new document keeps its id, uid and account; total and balance are the supplied ones or 0; the status is the supplied one or "draft" for an estimate and "pending" for an invoice or purchase order |
| Records.PatchDocument | server/storage.ts:389-404 | an update writes exactly the supplied fields: each supplied field takes its new value, every field left out keeps its old one, and the id and uid never change |
| Records.InsertedLine | server/storage.ts:429-444 | a new line's total is quantity times price, whatever total the caller sent |
| Records.PatchLine | server/storage.ts:446-477 | an update keeps the id and writes a supplied parent; with a quantity or a price supplied the total is quantity × price; with neither, quantity and price are kept and the total is the supplied one or the stored one |
| Records.PatchRecomputesTotal | server/storage.ts:446-477 | a patch with a quantity or a price recomputes the total from the supplied values, each falling back to the stored one |
| Records.PatchKeepsTotalConsistent | server/storage.ts:608-639 | a patch without an explicit total, or with a quantity or price, keeps total = quantity × price |
| Records.ExplicitTotalIsStoredAsGiven | server/storage.ts:762-793 | a patch with only a total stores it as given, leaving quantity and price, so the total can disagree with them |
| Records.InsertedPayment | shared/schema.ts:262-305 | a new payment keeps its account, parent and amount; it has a status exactly when it is a customer payment, "pending" unless supplied |
| Records.PatchPayment | server/storage.ts:845-923 | an update writes exactly the supplied fields: each supplied field takes its new value, every field left out (a customer payment's status included) keeps its old one; the id never changes and a vendor payment never gains a status |
| Records.InsertedCredit | server/storage.ts:968-977 | a new credit keeps its account, invoice, estimate and amount as given |
| Records.PatchCredit | server/storage.ts:979-994 | an update writes exactly the supplied fields: each supplied field takes its new value, every field left out keeps its old one, and the id never changes |
| Storage.AccountMatches | server/storage.ts:178-197 | the filter branches amount to: each supplied flag must match, and nothing else is tested |
| Storage.LinesWithout | server/storage.ts:406-419 | the lines of exactly the other documents remain, unchanged |
| Storage.DatabaseStorage.constructor | server/storage.ts:1316 | a fresh store is empty and valid |
| Storage.DatabaseStorage.SendWebhook | server/storage.ts:1288-1313 | appends the payload to the outbox |
| Storage.DatabaseStorage.QueuePdfGeneration | server/storage.ts:1275-1285 | appends one pending job for the record |
| Storage.DatabaseStorage.GetAccounts | server/storage.ts:178-197 | returns exactly the matching accounts, each once, in name order |
| Storage.DatabaseStorage.CreateAccount | server/storage.ts:214-231 | stores the account under a fresh `ACC-` uid with defaults and sends an INSERT carrying it; a taken id or uid fails and changes nothing |
| Storage.DatabaseStorage.UpdateAccount | server/storage.ts:233-248 | stores the account with exactly the supplied fields changed (`PatchAccount`) and sends an UPDATE with the new row only; a missing id changes nothing |
| Storage.DatabaseStorage.DeleteAccount | server/storage.ts:250-259 | removes the account and sends a DELETE carrying it as the old row; reports whether it existed |
| Storage.DatabaseStorage.GetProductsWithInventory | server/storage.ts:320-344 | every product once, in name order, each with the figures of `WithInventory` |
| Storage.DatabaseStorage.CreateProduct | server/storage.ts:276-290 | stores the product with its defaults and sends an INSERT; a taken id or sku fails and changes nothing |
| Storage.DatabaseStorage.UpdateProduct | server/storage.ts:292-307 | stores the product with exactly the supplied fields changed (`PatchProduct`) and sends an UPDATE; a missing id changes nothing |
| Storage.DatabaseStorage.DeleteProduct | server/storage.ts:309-318 | removes the product and sends a DELETE with the old row |
| Storage.DatabaseStorage.PdfJobsFor | server/storage.ts:540-543 | estimates queue no PDF; an invoice queues exactly one pending "invoice" job for the record, a purchase order exactly one pending "purchase_order" job |
| Storage.DatabaseStorage.CreateDocument | server/storage.ts:371-700 | estimates: stored under a fresh `EST-` uid and an INSERT sent, no PDF; a taken id or uid fails and changes nothing; invoices: stored under an `INV-` uid, then an INSERT and one pending invoice PDF job; purchase orders: stored under a `PO-` uid, then an INSERT and one pending purchase-order PDF job |
| Storage.DatabaseStorage.UpdateDocument | server/storage.ts:389-720 | every kind: stores the document with exactly the supplied fields changed (`PatchDocument`) and sends an UPDATE; a missing id changes nothing; invoices and purchase orders also queue a PDF job |
| Storage.DatabaseStorage.DeleteDocument | server/storage.ts:406-735 | estimates: the estimate's lines are removed, then the estimate, and one DELETE is sent for the estimate; invoices: the same cascade over invoice lines; purchase orders: the same cascade over purchase order lines |
| Storage.DatabaseStorage.CreateLine | server/storage.ts:429-760 | estimate lines: stored with total quantity × price and an INSERT sent; a taken id fails; invoice lines: the same; purchase order lines: the same, with unit cost as the price |
| Storage.DatabaseStorage.UpdateLine | server/storage.ts:446-793 | estimate lines: patched by `PatchLine` and an UPDATE sent; a missing id changes nothing; invoice lines: the same; purchase order lines: the same |
| Storage.DatabaseStorage.DeleteLine | server/storage.ts:479-808 | estimate lines: removed and a DELETE with the old row sent; invoice lines: the same; purchase order lines: the same |
| Storage.DatabaseStorage.CreatePayment | server/storage.ts:834-906 | customer payments: stored with status defaulting to pending and an INSERT sent; a taken id fails; vendor payments: stored (no status column) and an INSERT sent |
| Storage.DatabaseStorage.UpdatePayment | server/storage.ts:845-923 | customer and vendor payments: stores the payment with exactly the supplied fields changed (`PatchPayment`) and sends an UPDATE; a missing id changes nothing |
| Storage.DatabaseStorage.DeletePayment | server/storage.ts:862-934 | customer payments: removed and a DELETE with the old row sent; vendor payments: the same |
| Storage.DatabaseStorage.CreateCredit | server/storage.ts:968-977 | stores the credit and sends an INSERT; a taken id fails |
| Storage.DatabaseStorage.UpdateCredit | server/storage.ts:979-994 | stores the credit with exactly the supplied fields changed (`PatchCredit`) and sends an UPDATE; a missing id changes nothing |
| Storage.DatabaseStorage.DeleteCredit | server/storage.ts:996-1005 | removes the credit and sends a DELETE with the old row |
| Pipeline.EventFor | server/storage.ts:1288-1313 | the payload storage sends has the new row only on INSERT and UPDATE and the old row only on DELETE |
| Pipeline.StorageEventsNeverThrow | server/webhooks.ts:40-49 | no event shaped as storage sends it makes the dispatcher throw |
| Pipeline.OutboxNeverThrows | server/webhooks.ts:44-47 | every payload in a valid store's outbox dispatches without error |
| Pipeline.StorageUpdatesSkipBalanceRecompute | server/webhooks.ts:42 | a storage UPDATE of an invoice, purchase order or account calls nothing, since the old row is never sent |
| Pipeline.LineEventRecomputesParent | server/storage.ts:429-444 | any storage write of a line item recomputes exactly the document it names, when it names one |
| Pipeline.MovedLineLeavesOldParentUnrecomputed | server/storage.ts:446-477 | moving a line to another document recomputes only the new one; the document it left is named in no call |
| Pipeline.DocumentEventRecomputesAccount | server/storage.ts:527-546 | creating or deleting an invoice (PO) recomputes its account's customer (vendor) balance; updating one, or any estimate write, recomputes nothing |
| Pipeline.PaymentEventRecomputesParent | server/storage.ts:834-843 | any customer (vendor) payment write recomputes the invoice (PO) it names |
| Pipeline.CreditEventRecomputes | server/storage.ts:968-977 | a credit write recomputes the invoice it names, then the estimate it names |
| Pipeline.AccountAndProductEventsCallNothing | server/storage.ts:214-231 | account and product writes through storage lead to no recompute call |
| Utils.GetStatusColor | client/src/lib/utils.ts:39-68 | the result is one of the five badge classes, and gray exactly when the lower-cased status is in none of the four lists |
| Utils.StatusGroups | client/src/lib/utils.ts:39-68 | a status is green, amber, red or blue exactly when its lower-cased text is in that group's list, and gray otherwise |
| Utils.StatusColorIgnoresCase | client/src/lib/utils.ts:40 | upper- or lower-casing the status does not change its colour |
| Utils.StatusColorExamples | client/src/lib/utils.ts:41-64 | "PAID" and "Paid" are green, "In-Progress" is blue, "Sent" amber, "FAILED" red, "unknown" gray |
| Utils.FixedOneDecimal | client/src/lib/utils.ts:36 | one-decimal text: at least three characters, a point before one final digit, a minus sign exactly for negatives |
| Utils.FormatPercentChange | client/src/lib/utils.ts:31-37 | null or undefined gives "0%"; the text ends in "%"; it starts with "+" exactly when the sign is requested and the value is positive, and with "-" exactly when negative |
| Utils.SignOnlyPrefixesPositives | client/src/lib/utils.ts:35 | requesting the sign only prefixes "+" to positive values and changes nothing else |
| Utils.FormatCurrency | client/src/lib/utils.ts:9-19 | null or undefined is "$0.00" without formatting; a string is parsed first, a number formatted as is |
| Utils.FormatDate | client/src/lib/utils.ts:21-29 | a falsy date is "N/A" before parsing; an invalid date is "Invalid date"; otherwise the formatted date |
| InventoryStatus.ViewOf | server/storage.ts:334-340 | the client's product carries the server's available stock and the stored reorder level |
| InventoryStatus.GetStockBadge | client/src/components/dashboard/inventory-status.tsx:68-97 | out of stock exactly at zero stock; low exactly when non-zero and at most the level (0 or absent meaning 5); in stock otherwise; the count shown is the available stock |
| InventoryStatus.MissingStockIsOut | client/src/components/dashboard/inventory-status.tsx:69 | a product without `stockAvailable` is out of stock |
| InventoryStatus.ZeroLevelMeansFive | client/src/components/dashboard/inventory-status.tsx:70 | a reorder level of 0 or none behaves as 5 |
| InventoryStatus.NegativeStockIsLow | client/src/components/dashboard/inventory-status.tsx:78 | negative stock is shown as low whenever the level is not below it |
| InventoryStatus.BadgeMonotone | client/src/components/dashboard/inventory-status.tsx:72-96 | for non-negative stock, more stock never gives a worse badge |
| InventoryStatus.ServerProductBadge | server/storage.ts:329 | a server product is out of stock on the dashboard exactly when its stock quantity is absent or zero |
| ProductsPage.FilterIsOneFilter | client/src/pages/products.tsx:47-79 | the search filter followed by the tab filter is one filter by the combined test |
| ProductsPage.FilterProducts | client/src/pages/products.tsx:47-79 | the list is no longer than the products, holds only products that pass the tab and, for a non-empty query, only products matching it |
| ProductsPage.Searched | client/src/pages/products.tsx:51-60 | the search step keeps only products, and for a non-empty query only those matching it |
| ProductsPage.SearchMatches | client/src/pages/products.tsx:54-59 | the empty query matches every product; an empty description is falsy and never matches, leaving name and sku |
| ProductsPage.ShownIff | client/src/pages/products.tsx:52-76 | a product is listed exactly when it is one of the products, matches the lower-cased query in name, sku or a non-empty description (or the query is empty), and passes the tab |
| ProductsPage.FilterKeepsOrder | client/src/pages/products.tsx:54-75 | the list is a subsequence of the search result and of the products |
| ProductsPage.FilterIdempotent | client/src/pages/products.tsx:47-79 | filtering the shown list again changes nothing |
| ProductsPage.NoQueryOtherTabShowsAll | client/src/pages/products.tsx:49-76 | no query and a tab other than low, out and in show every product |
| ProductsPage.TabsDisjoint | client/src/pages/products.tsx:63-75 | low excludes out and in; out and in overlap only at zero stock with a negative level |
| ProductsPage.ExactlyOneTab | client/src/pages/products.tsx:63-75 | with non-negative stock and level, a product is in exactly one of low, out and in |
| ProductsPage.OutTabShowsNoStock | client/src/pages/products.tsx:68-71 | with no query, the out tab lists exactly the products with no or zero stock |
| PortalLayout.GetInitials | client/src/components/layout/portal-layout.tsx:40-47 | the initials are at most two characters |
| PortalLayout.InitialsAreWordHeads | client/src/components/layout/portal-layout.tsx:40-47 | the initials are the upper-cased first characters of the first two words of the name, or fewer when it has fewer words; empty parts left by repeated spaces add nothing |
| PortalLayout.JoinFirstChars | client/src/components/layout/portal-layout.tsx:43-44 | joining every part's first character gives the heads of the non-empty parts |
| PortalLayout.InitialsOfAgreeingNames | client/src/components/layout/portal-layout.tsx:40-47 | names whose first two words agree have the same initials |
| PortalLayout.InitialsOfShortNames | client/src/components/layout/portal-layout.tsx:40-47 | the empty name has no initials; a single word gives its first letter upper-cased |
| PortalLayout.IsActive | client/src/components/layout/portal-layout.tsx:96-97 | the home item is active exactly at its own href; any other item exactly when the location starts with its href |
| PortalLayout.HomeActiveOnlyAtHome | client/src/components/layout/portal-layout.tsx:96-97 | the Dashboard item is active only at "/portal" itself |
| PortalLayout.PrefixIsTextual | client/src/components/layout/portal-layout.tsx:96-97 | the prefix test is textual: "/portal/invoicesX" and "/portal/invoices/42" highlight Invoices |
| PortalLayout.NavHrefsDiffer | client/src/components/layout/portal-layout.tsx:31-37 | below the home item, the hrefs differ in their first ten characters |
| PortalLayout.AtMostOneActive | client/src/components/layout/portal-layout.tsx:31-37 | for any location, at most one navigation item is highlighted |

## Left out

- The other tables' CRUD are not part of this model: expenses, messages, users and portal access. Neither are the getters by id, the dashboard summary (mock figures) or authentication.
- Decimal columns (balances, amounts, prices) are integer cents. The database driver returns them as strings, but no branch of the core tests them for truthiness or equality against a number.
- Timestamps (`createdAt`, `updatedAt`, issue dates) and Glide row ids are not modelled, and the `ORDER BY issue_date` listings are not modelled.
- Foreign-key constraints are not enforced. In the model, these operations succeed where the database raises:
  - creating a record whose account or parent document does not exist;
  - deleting an invoice or estimate that a payment or credit still names;
  - deleting a purchase order that a vendor payment still names;
  - deleting an account that documents name, or a product that lines name.
  In the database, deleting such a document raises after its lines are already gone, and no event is sent.
- Storage.DatabaseStorage.DeleteDocument, Storage.DatabaseStorage.UpdateLine and the other storage methods: each method is one atomic step here. In the source, each method issues several awaited queries with no transaction, so interleaving with other requests and partial failure are not captured. Affected:
  - `DeleteDocument`: lines, then the parent, then the event.
  - `UpdateLine`: reads the stored line, then writes the total.
  - Every update and delete: reads or writes the row, then sends the event.
- Explicit `null`s in partial updates are not modelled: a patch field is either absent or a value.
- Records.PatchAccount, Records.PatchProduct, Records.PatchDocument, Records.PatchPayment and Records.PatchCredit: the patch types have no id, uid or sku field, so the model excludes patches to those columns. The update routes pass the request body to storage unvalidated, so the program does let a patch overwrite them.
- Storage.DatabaseStorage.GetAccounts: the order is by code point (`Text.LexLe`), not by the database's collation. Ties between equal names are in an unspecified order.
- Storage.DatabaseStorage.GetProductsWithInventory: the same collation note applies.
- Storage.DatabaseStorage.SendWebhook: only the payload is recorded. The HTTP delivery, its URL and the swallowed network errors are not modelled. Neither is the fact that delivery is asynchronous.
- Webhooks.CallDatabaseFunction: the database is an opaque function of query text and parameters. The functions' own SQL is not part of this model. The parameters are bound to the placeholders they number, which is the corrected behaviour under "## Findings"; the driver's binding itself is not modelled.
- Webhooks.Execute: logging is not modelled.
- Records.InsertedLine: a line created without a quantity is not modelled. The insert schemas make `quantity` optional because the column has a default of 1, so such a line is stored with quantity 1 and a NaN total computed from the missing value. Floating-point NaN is out of scope.
- Utils.FixedOneDecimal: the value is given already in tenths. Floating-point rounding of `toFixed` is not modelled.
- Utils.FormatCurrency: `Intl.NumberFormat` and the currency code are passed in as a function.
- Utils.FormatDate: the string-to-date conversion (`new Date(date)`) and date-fns' `isValid` and `format` are passed in as functions.
- Text.ToLower: case mapping is ASCII only. The same holds for `Text.ToUpper` and so for `getStatusColor` and the initials. Unicode case mapping is not modelled.
- ProductsPage.TabLevel: a reorder level that is `null` compares as 0. A level that is missing altogether (`undefined`, which makes every comparison false) is not modelled, because the server always sends the column.
- PortalLayout.GetInitials: `charAt(0)` is one UTF-16 unit here, modelled as one character.

## Findings

| source | as written | input that shows it | evidently intended | confidence | as-written member | corrected member |
|---|---|---|---|---|---|---|
| server/webhooks.ts:166 | the parameter values are passed as a second argument to `sql.raw`, which takes the query text only, so `$1` … `$n` reach the database unbound | any dispatched call, e.g. `update_invoice_finance_metrics` with one invoice id, on PostgreSQL | the values bound to the placeholders they number | medium, not executed; rests on the one-argument signature of drizzle-orm's `sql.raw`, whose code is not part of this model | Webhooks.AsWrittenCallsFail | Webhooks.EveryPlaceholderBound |

/**
 * `DatabaseStorage`: the tables it writes, the change events it sends (as an outbox
 * of webhook payloads, in order) and the PDF generation queue. Each table is a map
 * from primary key to record. A database insert that breaks a primary-key or unique
 * constraint raises, so the create methods return `Failure` then and change nothing.
 */
module Storage {
  import opened Wrappers
  import opened JsValues
  import opened Records
  import opened Webhooks
  import Seqs
  import Text

  /** A row of one of the three document tables (or of their line tables), by kind and id. */
  datatype Key = Key(kind: DocKind, id: string)

  /** A row of one of the two payment tables. */
  datatype PayKey = PayKey(kind: PayKind, id: string)

  /** The event shapes storage sends: INSERT and UPDATE carry the new row only, DELETE the old row only. */
  predicate IsStorageEvent(e: Payload) {
    ((e.op == INSERT || e.op == UPDATE) && e.row.Some? && e.oldRow.None?) ||
    (e.op == DELETE && e.row.None? && e.oldRow.Some?)
  }

  // ---------------------------------------------------------------------------
  // Table invariants, stated on the table values

  predicate AccountUidTaken(t: map<string, Account>, uid: string) {
    exists id :: id in t && t[id].accountUid == uid
  }

  predicate AccountsValid(t: map<string, Account>) {
    (forall id :: id in t ==> t[id].id == id) &&
    (forall a, b :: a in t && b in t && a != b ==> t[a].accountUid != t[b].accountUid)
  }

  predicate SkuTaken(t: map<string, Product>, sku: string) {
    exists id :: id in t && t[id].sku == sku
  }

  predicate ProductsValid(t: map<string, Product>) {
    (forall id :: id in t ==> t[id].id == id) &&
    (forall a, b :: a in t && b in t && a != b ==> t[a].sku != t[b].sku)
  }

  predicate DocumentUidTaken(t: map<Key, Document>, kind: DocKind, uid: string) {
    exists k :: k in t && k.kind == kind && t[k].uid == uid
  }

  predicate DocumentsValid(t: map<Key, Document>) {
    (forall k :: k in t ==> t[k].id == k.id) &&
    (forall a, b :: a in t && b in t && a != b && a.kind == b.kind ==> t[a].uid != t[b].uid)
  }

  predicate LinesValid(t: map<Key, Line>) {
    forall k :: k in t ==> t[k].id == k.id
  }

  predicate PaymentsValid(t: map<PayKey, Payment>) {
    forall k :: k in t ==> t[k].id == k.id && (t[k].status.Some? <==> k.kind == CustomerPayment)
  }

  predicate CreditsValid(t: map<string, Credit>) {
    forall id :: id in t ==> t[id].id == id
  }

  predicate OutboxValid(outbox: seq<Payload>) {
    forall i :: 0 <= i < |outbox| ==> IsStorageEvent(outbox[i])
  }

  predicate PdfQueueValid(q: seq<PdfJob>) {
    forall i :: 0 <= i < |q| ==> q[i].status == "pending" && q[i].recordType in {"invoice", "purchase_order"}
  }

  /** The lines of every document except those of document `parentId` of kind `kind`. */
  function LinesWithout(t: map<Key, Line>, kind: DocKind, parentId: string): (r: map<Key, Line>)
    ensures forall k :: k in r <==> k in t && !(k.kind == kind && t[k].parentId == parentId)
    ensures forall k :: k in r ==> r[k] == t[k]
  {
    map k | k in t && !(k.kind == kind && t[k].parentId == parentId) :: t[k]
  }

  /** Does the account match `getAccounts`' optional `isCustomer`/`isVendor` filters? */
  datatype AccountFilter = AccountFilter(isCustomer: Option<bool>, isVendor: Option<bool>)

  /** The branches of the filter amount to: each supplied flag must match, and nothing else is tested. */
  predicate AccountMatches(filters: Option<AccountFilter>, a: Account)
    ensures AccountMatches(filters, a) <==>
            filters.None? ||
            ((filters.value.isCustomer.None? || a.isCustomer == filters.value.isCustomer.value) &&
             (filters.value.isVendor.None? || a.isVendor == filters.value.isVendor.value))
  {
    match filters
    case None => true
    case Some(f) =>
      if f.isCustomer.Some? && f.isVendor.Some? then
        a.isCustomer == f.isCustomer.value && a.isVendor == f.isVendor.value
      else if f.isCustomer.Some? then a.isCustomer == f.isCustomer.value
      else if f.isVendor.Some? then a.isVendor == f.isVendor.value
      else true
  }

  function AccountName(a: Account): string { a.name }

  function ProductName(p: Product): string { p.name }

  function ProductsOf(r: seq<ProductWithInventory>): (ps: seq<Product>)
    ensures |ps| == |r| && forall i :: 0 <= i < |r| ==> ps[i] == r[i].product
  {
    seq(|r|, i requires 0 <= i < |r| => r[i].product)
  }

  class DatabaseStorage {
    var accounts: map<string, Account>
    var products: map<string, Product>
    var documents: map<Key, Document>
    var lines: map<Key, Line>
    var payments: map<PayKey, Payment>
    var credits: map<string, Credit>
    /** Every change event sent, oldest first. */
    var outbox: seq<Payload>
    /** Every row inserted into `pdf_queue`, oldest first. */
    var pdfQueue: seq<PdfJob>

    predicate Valid()
      reads this
    {
      AccountsValid(accounts) && ProductsValid(products) && DocumentsValid(documents) &&
      LinesValid(lines) && PaymentsValid(payments) && CreditsValid(credits) &&
      OutboxValid(outbox) && PdfQueueValid(pdfQueue)
    }

    constructor ()
      ensures Valid()
      ensures accounts == map[] && products == map[] && documents == map[] && lines == map[]
      ensures payments == map[] && credits == map[] && outbox == [] && pdfQueue == []
    {
      accounts, products, documents, lines := map[], map[], map[], map[];
      payments, credits, outbox, pdfQueue := map[], map[], [], [];
    }

    /** `sendWebhook`: the payload is recorded; its delivery is not modelled. */
    method SendWebhook(table: string, id: string, op: string, row: Option<Row>, oldRow: Option<Row>)
      modifies this`outbox
      ensures outbox == old(outbox) + [Payload(table, id, op, row, oldRow)]
    {
      outbox := outbox + [Payload(table, id, op, row, oldRow)];
    }

    /** `queuePdfGeneration`: one pending job for the record. */
    method QueuePdfGeneration(recordType: string, recordId: string)
      modifies this`pdfQueue
      ensures pdfQueue == old(pdfQueue) + [PdfJob(recordType, recordId, "pending")]
    {
      pdfQueue := pdfQueue + [PdfJob(recordType, recordId, "pending")];
    }

    // -------------------------------------------------------------------------
    // Accounts

    /** `getAccounts`: the accounts matching the filters, each once, ordered by name. */
    method GetAccounts(filters: Option<AccountFilter>) returns (r: seq<Account>)
      ensures forall a :: a in r <==> a in accounts.Values && AccountMatches(filters, a)
      ensures forall i, j :: 0 <= i < j < |r| ==> Text.LexLe(r[i].name, r[j].name)
      ensures |r| == |set a | a in accounts.Values && AccountMatches(filters, a)|
    {
      var matching := set a | a in accounts.Values && AccountMatches(filters, a);
      Seqs.OrderedByNameExists(matching, AccountName);
      r :| Seqs.IsOrderedByName(r, matching, AccountName);
    }

    /**
     * `createAccount`: the account is stored under a fresh `ACC-` uid and an INSERT
     * event carrying it is sent; a taken id or uid raises instead.
     */
    method CreateAccount(id: string, generated: string, data: NewAccount) returns (r: Result<Account, StorageError>)
      requires Valid()
      modifies this`accounts, this`outbox
      ensures Valid()
      ensures var uid := Uid(AccountUidPrefix, generated);
              var a := InsertedAccount(id, uid, data);
              if old(id in accounts) || old(AccountUidTaken(accounts, uid)) then
                r.Failure? && accounts == old(accounts) && outbox == old(outbox)
              else
                r == Success(a) && accounts == old(accounts)[id := a] &&
                outbox == old(outbox) + [Payload("accounts", id, INSERT, Some(AccountRow(a)), None)]
    {
      var uid := Uid(AccountUidPrefix, generated);
      if id in accounts {
        return Failure(UniqueViolation("id"));
      }
      if AccountUidTaken(accounts, uid) {
        return Failure(UniqueViolation("account_uid"));
      }
      var a := InsertedAccount(id, uid, data);
      accounts := accounts[id := a];
      SendWebhook("accounts", id, INSERT, Some(AccountRow(a)), None);
      r := Success(a);
    }

    /** `updateAccount`: a missing id changes nothing and sends nothing. */
    method UpdateAccount(id: string, patch: AccountPatch) returns (r: Option<Account>)
      requires Valid()
      modifies this`accounts, this`outbox
      ensures Valid()
      ensures if old(id in accounts) then
                var a := PatchAccount(old(accounts[id]), patch);
                r == Some(a) && accounts == old(accounts)[id := a] &&
                outbox == old(outbox) + [Payload("accounts", id, UPDATE, Some(AccountRow(a)), None)]
              else
                r == None && accounts == old(accounts) && outbox == old(outbox)
    {
      if id !in accounts {
        return None;
      }
      var a := PatchAccount(accounts[id], patch);
      accounts := accounts[id := a];
      SendWebhook("accounts", id, UPDATE, Some(AccountRow(a)), None);
      r := Some(a);
    }

    /** `deleteAccount`: removes the account and sends a DELETE event carrying it as the old row. */
    method DeleteAccount(id: string) returns (deleted: bool)
      requires Valid()
      modifies this`accounts, this`outbox
      ensures Valid()
      ensures deleted == old(id in accounts)
      ensures deleted ==> accounts == old(accounts) - {id} &&
                          outbox == old(outbox) + [Payload("accounts", id, DELETE, None, Some(AccountRow(old(accounts[id]))))]
      ensures !deleted ==> accounts == old(accounts) && outbox == old(outbox)
    {
      if id !in accounts {
        return false;
      }
      var a := accounts[id];
      accounts := accounts - {id};
      SendWebhook("accounts", id, DELETE, None, Some(AccountRow(a)));
      deleted := true;
    }

    // -------------------------------------------------------------------------
    // Products

    /**
     * `getProductsWithInventory`: every product once, in name order, each with the
     * inventory figures of `WithInventory`.
     */
    method GetProductsWithInventory() returns (r: seq<ProductWithInventory>)
      ensures Seqs.IsOrderedByName(ProductsOf(r), products.Values, ProductName)
      ensures forall i :: 0 <= i < |r| ==> r[i] == WithInventory(r[i].product)
    {
      Seqs.OrderedByNameExists(products.Values, ProductName);
      var rows :| Seqs.IsOrderedByName(rows, products.Values, ProductName);
      r := [];
      for i := 0 to |rows|
        invariant |r| == i
        invariant forall k :: 0 <= k < i ==> r[k] == WithInventory(rows[k])
      {
        r := r + [WithInventory(rows[i])];
      }
      assert ProductsOf(r) == rows;
    }

    /** `createProduct`: stores the product (sku unique) and sends an INSERT event. */
    method CreateProduct(id: string, data: NewProduct) returns (r: Result<Product, StorageError>)
      requires Valid()
      modifies this`products, this`outbox
      ensures Valid()
      ensures var p := InsertedProduct(id, data);
              if old(id in products) || old(SkuTaken(products, data.sku)) then
                r.Failure? && products == old(products) && outbox == old(outbox)
              else
                r == Success(p) && products == old(products)[id := p] &&
                outbox == old(outbox) + [Payload("products", id, INSERT, Some(ProductRow(p)), None)]
    {
      if id in products {
        return Failure(UniqueViolation("id"));
      }
      if SkuTaken(products, data.sku) {
        return Failure(UniqueViolation("sku"));
      }
      var p := InsertedProduct(id, data);
      products := products[id := p];
      SendWebhook("products", id, INSERT, Some(ProductRow(p)), None);
      r := Success(p);
    }

    method UpdateProduct(id: string, patch: ProductPatch) returns (r: Option<Product>)
      requires Valid()
      modifies this`products, this`outbox
      ensures Valid()
      ensures if old(id in products) then
                var p := PatchProduct(old(products[id]), patch);
                r == Some(p) && products == old(products)[id := p] &&
                outbox == old(outbox) + [Payload("products", id, UPDATE, Some(ProductRow(p)), None)]
              else
                r == None && products == old(products) && outbox == old(outbox)
    {
      if id !in products {
        return None;
      }
      var p := PatchProduct(products[id], patch);
      products := products[id := p];
      SendWebhook("products", id, UPDATE, Some(ProductRow(p)), None);
      r := Some(p);
    }

    method DeleteProduct(id: string) returns (deleted: bool)
      requires Valid()
      modifies this`products, this`outbox
      ensures Valid()
      ensures deleted == old(id in products)
      ensures deleted ==> products == old(products) - {id} &&
                          outbox == old(outbox) + [Payload("products", id, DELETE, None, Some(ProductRow(old(products[id]))))]
      ensures !deleted ==> products == old(products) && outbox == old(outbox)
    {
      if id !in products {
        return false;
      }
      var p := products[id];
      products := products - {id};
      SendWebhook("products", id, DELETE, None, Some(ProductRow(p)));
      deleted := true;
    }

    // -------------------------------------------------------------------------
    // Estimates, invoices and purchase orders

    /** The PDF jobs `createInvoice`/`createPurchaseOrder` and their updates queue; none for estimates. */
    static function PdfJobsFor(kind: DocKind, id: string): (jobs: seq<PdfJob>)
      ensures kind == Estimate ==> jobs == []
      ensures kind != Estimate ==>
                jobs == [PdfJob(if kind == Invoice then "invoice" else "purchase_order", id, "pending")]
      ensures PdfQueueValid(jobs)
    {
      match kind.PdfRecordType()
      case None => []
      case Some(t) => [PdfJob(t, id, "pending")]
    }

    /**
     * `createEstimate`, `createInvoice`, `createPurchaseOrder`: the document is stored
     * under a fresh `EST-`/`INV-`/`PO-` uid, an INSERT event carrying it is sent and
     * then, for an invoice or purchase order, one pending PDF job is queued.
     */
    method CreateDocument(kind: DocKind, id: string, generated: string, data: NewDocument)
      returns (r: Result<Document, StorageError>)
      requires Valid()
      modifies this`documents, this`outbox, this`pdfQueue
      ensures Valid()
      ensures var uid := Uid(kind.UidPrefix(), generated);
              var d := InsertedDocument(kind, id, uid, data);
              if old(Key(kind, id) in documents) || old(DocumentUidTaken(documents, kind, uid)) then
                r.Failure? && documents == old(documents) && outbox == old(outbox) && pdfQueue == old(pdfQueue)
              else
                r == Success(d) && documents == old(documents)[Key(kind, id) := d] &&
                outbox == old(outbox) + [Payload(kind.Table(), id, INSERT, Some(DocumentRow(kind, d)), None)] &&
                pdfQueue == old(pdfQueue) + PdfJobsFor(kind, id)
    {
      var uid := Uid(kind.UidPrefix(), generated);
      if Key(kind, id) in documents {
        return Failure(UniqueViolation("id"));
      }
      if DocumentUidTaken(documents, kind, uid) {
        return Failure(UniqueViolation(kind.UidKey()));
      }
      var d := InsertedDocument(kind, id, uid, data);
      documents := documents[Key(kind, id) := d];
      SendWebhook(kind.Table(), id, INSERT, Some(DocumentRow(kind, d)), None);
      if kind.PdfRecordType().Some? {
        QueuePdfGeneration(kind.PdfRecordType().value, id);
      }
      r := Success(d);
    }

    /**
     * `updateEstimate`, `updateInvoice`, `updatePurchaseOrder`: a missing id changes
     * nothing; otherwise the patched document is stored, an UPDATE event sent and,
     * for an invoice or purchase order, a PDF job queued.
     */
    method UpdateDocument(kind: DocKind, id: string, patch: DocumentPatch) returns (r: Option<Document>)
      requires Valid()
      modifies this`documents, this`outbox, this`pdfQueue
      ensures Valid()
      ensures if old(Key(kind, id) in documents) then
                var d := PatchDocument(old(documents[Key(kind, id)]), patch);
                r == Some(d) && documents == old(documents)[Key(kind, id) := d] &&
                outbox == old(outbox) + [Payload(kind.Table(), id, UPDATE, Some(DocumentRow(kind, d)), None)] &&
                pdfQueue == old(pdfQueue) + PdfJobsFor(kind, id)
              else
                r == None && documents == old(documents) && outbox == old(outbox) && pdfQueue == old(pdfQueue)
    {
      var key := Key(kind, id);
      if key !in documents {
        return None;
      }
      var d := PatchDocument(documents[key], patch);
      documents := documents[key := d];
      SendWebhook(kind.Table(), id, UPDATE, Some(DocumentRow(kind, d)), None);
      if kind.PdfRecordType().Some? {
        QueuePdfGeneration(kind.PdfRecordType().value, id);
      }
      r := Some(d);
    }

    /**
     * `deleteEstimate`, `deleteInvoice`, `deletePurchaseOrder`: the document's lines
     * are removed first, then the document, and one DELETE event is sent, for the
     * document only. Payments and credits that name it stay.
     */
    method DeleteDocument(kind: DocKind, id: string) returns (deleted: bool)
      requires Valid()
      modifies this`documents, this`lines, this`outbox
      ensures Valid()
      ensures deleted == old(Key(kind, id) in documents)
      ensures deleted ==>
                documents == old(documents) - {Key(kind, id)} &&
                lines == LinesWithout(old(lines), kind, id) &&
                outbox == old(outbox) + [Payload(kind.Table(), id, DELETE, None,
                                                 Some(DocumentRow(kind, old(documents[Key(kind, id)]))))]
      ensures !deleted ==> documents == old(documents) && lines == old(lines) && outbox == old(outbox)
    {
      var key := Key(kind, id);
      if key !in documents {
        return false;
      }
      var d := documents[key];
      lines := LinesWithout(lines, kind, id);
      documents := documents - {key};
      SendWebhook(kind.Table(), id, DELETE, None, Some(DocumentRow(kind, d)));
      deleted := true;
    }

    // -------------------------------------------------------------------------
    // Line items

    /**
     * `createEstimateLineItem`, `createInvoiceLineItem`, `createPurchaseOrderLine`:
     * the line is stored with total quantity times price and an INSERT event sent.
     */
    method CreateLine(kind: DocKind, id: string, data: NewLine) returns (r: Result<Line, StorageError>)
      requires Valid()
      modifies this`lines, this`outbox
      ensures Valid()
      ensures var l := InsertedLine(id, data);
              if old(Key(kind, id) in lines) then
                r.Failure? && lines == old(lines) && outbox == old(outbox)
              else
                r == Success(l) && lines == old(lines)[Key(kind, id) := l] &&
                outbox == old(outbox) + [Payload(kind.LineTable(), id, INSERT, Some(LineRow(kind, l)), None)]
    {
      if Key(kind, id) in lines {
        return Failure(UniqueViolation("id"));
      }
      var l := InsertedLine(id, data);
      lines := lines[Key(kind, id) := l];
      SendWebhook(kind.LineTable(), id, INSERT, Some(LineRow(kind, l)), None);
      r := Success(l);
    }

    /**
     * `update…LineItem`/`updatePurchaseOrderLine`: the total is recomputed only when
     * the patch supplies a quantity or a price (see `PatchLine`); a missing id
     * changes nothing and sends nothing.
     */
    method UpdateLine(kind: DocKind, id: string, patch: LinePatch) returns (r: Option<Line>)
      requires Valid()
      modifies this`lines, this`outbox
      ensures Valid()
      ensures if old(Key(kind, id) in lines) then
                var l := PatchLine(old(lines[Key(kind, id)]), patch);
                r == Some(l) && lines == old(lines)[Key(kind, id) := l] &&
                outbox == old(outbox) + [Payload(kind.LineTable(), id, UPDATE, Some(LineRow(kind, l)), None)]
              else
                r == None && lines == old(lines) && outbox == old(outbox)
    {
      var key := Key(kind, id);
      if key !in lines {
        return None;
      }
      var l := PatchLine(lines[key], patch);
      lines := lines[key := l];
      SendWebhook(kind.LineTable(), id, UPDATE, Some(LineRow(kind, l)), None);
      r := Some(l);
    }

    method DeleteLine(kind: DocKind, id: string) returns (deleted: bool)
      requires Valid()
      modifies this`lines, this`outbox
      ensures Valid()
      ensures deleted == old(Key(kind, id) in lines)
      ensures deleted ==> lines == old(lines) - {Key(kind, id)} &&
                          outbox == old(outbox) + [Payload(kind.LineTable(), id, DELETE, None,
                                                           Some(LineRow(kind, old(lines[Key(kind, id)]))))]
      ensures !deleted ==> lines == old(lines) && outbox == old(outbox)
    {
      var key := Key(kind, id);
      if key !in lines {
        return false;
      }
      var l := lines[key];
      lines := lines - {key};
      SendWebhook(kind.LineTable(), id, DELETE, None, Some(LineRow(kind, l)));
      deleted := true;
    }

    // -------------------------------------------------------------------------
    // Customer and vendor payments

    method CreatePayment(kind: PayKind, id: string, data: NewPayment) returns (r: Result<Payment, StorageError>)
      requires Valid()
      modifies this`payments, this`outbox
      ensures Valid()
      ensures var p := InsertedPayment(kind, id, data);
              if old(PayKey(kind, id) in payments) then
                r.Failure? && payments == old(payments) && outbox == old(outbox)
              else
                r == Success(p) && payments == old(payments)[PayKey(kind, id) := p] &&
                outbox == old(outbox) + [Payload(kind.Table(), id, INSERT, Some(PaymentRow(kind, p)), None)]
    {
      if PayKey(kind, id) in payments {
        return Failure(UniqueViolation("id"));
      }
      var p := InsertedPayment(kind, id, data);
      payments := payments[PayKey(kind, id) := p];
      SendWebhook(kind.Table(), id, INSERT, Some(PaymentRow(kind, p)), None);
      r := Success(p);
    }

    method UpdatePayment(kind: PayKind, id: string, patch: PaymentPatch) returns (r: Option<Payment>)
      requires Valid()
      modifies this`payments, this`outbox
      ensures Valid()
      ensures if old(PayKey(kind, id) in payments) then
                var p := PatchPayment(kind, old(payments[PayKey(kind, id)]), patch);
                r == Some(p) && payments == old(payments)[PayKey(kind, id) := p] &&
                outbox == old(outbox) + [Payload(kind.Table(), id, UPDATE, Some(PaymentRow(kind, p)), None)]
              else
                r == None && payments == old(payments) && outbox == old(outbox)
    {
      var key := PayKey(kind, id);
      if key !in payments {
        return None;
      }
      var p := PatchPayment(kind, payments[key], patch);
      payments := payments[key := p];
      SendWebhook(kind.Table(), id, UPDATE, Some(PaymentRow(kind, p)), None);
      r := Some(p);
    }

    method DeletePayment(kind: PayKind, id: string) returns (deleted: bool)
      requires Valid()
      modifies this`payments, this`outbox
      ensures Valid()
      ensures deleted == old(PayKey(kind, id) in payments)
      ensures deleted ==> payments == old(payments) - {PayKey(kind, id)} &&
                          outbox == old(outbox) + [Payload(kind.Table(), id, DELETE, None,
                                                           Some(PaymentRow(kind, old(payments[PayKey(kind, id)]))))]
      ensures !deleted ==> payments == old(payments) && outbox == old(outbox)
    {
      var key := PayKey(kind, id);
      if key !in payments {
        return false;
      }
      var p := payments[key];
      payments := payments - {key};
      SendWebhook(kind.Table(), id, DELETE, None, Some(PaymentRow(kind, p)));
      deleted := true;
    }

    // -------------------------------------------------------------------------
    // Customer credits

    method CreateCredit(id: string, data: NewCredit) returns (r: Result<Credit, StorageError>)
      requires Valid()
      modifies this`credits, this`outbox
      ensures Valid()
      ensures var c := InsertedCredit(id, data);
              if old(id in credits) then
                r.Failure? && credits == old(credits) && outbox == old(outbox)
              else
                r == Success(c) && credits == old(credits)[id := c] &&
                outbox == old(outbox) + [Payload("customer_credits", id, INSERT, Some(CreditRow(c)), None)]
    {
      if id in credits {
        return Failure(UniqueViolation("id"));
      }
      var c := InsertedCredit(id, data);
      credits := credits[id := c];
      SendWebhook("customer_credits", id, INSERT, Some(CreditRow(c)), None);
      r := Success(c);
    }

    method UpdateCredit(id: string, patch: CreditPatch) returns (r: Option<Credit>)
      requires Valid()
      modifies this`credits, this`outbox
      ensures Valid()
      ensures if old(id in credits) then
                var c := PatchCredit(old(credits[id]), patch);
                r == Some(c) && credits == old(credits)[id := c] &&
                outbox == old(outbox) + [Payload("customer_credits", id, UPDATE, Some(CreditRow(c)), None)]
              else
                r == None && credits == old(credits) && outbox == old(outbox)
    {
      if id !in credits {
        return None;
      }
      var c := PatchCredit(credits[id], patch);
      credits := credits[id := c];
      SendWebhook("customer_credits", id, UPDATE, Some(CreditRow(c)), None);
      r := Some(c);
    }

    method DeleteCredit(id: string) returns (deleted: bool)
      requires Valid()
      modifies this`credits, this`outbox
      ensures Valid()
      ensures deleted == old(id in credits)
      ensures deleted ==> credits == old(credits) - {id} &&
                          outbox == old(outbox) + [Payload("customer_credits", id, DELETE, None, Some(CreditRow(old(credits[id]))))]
      ensures !deleted ==> credits == old(credits) && outbox == old(outbox)
    {
      if id !in credits {
        return false;
      }
      var c := credits[id];
      credits := credits - {id};
      SendWebhook("customer_credits", id, DELETE, None, Some(CreditRow(c)));
      deleted := true;
    }
  }
}

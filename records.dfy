/**
 * The records `DatabaseStorage` keeps, with the defaults their columns take on insert,
 * the partial updates it applies, and the row objects it puts into change events.
 * Decimal columns (balances, amounts, prices) are integer cents; quantities and stock
 * counts are integers. Timestamps, Glide row ids and free-text columns the core never
 * reads are not modelled.
 */
module Records {
  import opened Wrappers
  import opened JsValues
  import Text

  // ---------------------------------------------------------------------------
  // Accounts

  datatype Account = Account(
    id: string, accountUid: string, name: string,
    isCustomer: bool, isVendor: bool,
    customerBalance: int, vendorBalance: int, netBalance: int)

  /** The insert data of an account; an absent column takes its default (false, 0). */
  datatype NewAccount = NewAccount(
    name: string, isCustomer: Option<bool>, isVendor: Option<bool>,
    customerBalance: Option<int>, vendorBalance: Option<int>, netBalance: Option<int>)

  /** A partial update: each present field overwrites the column. */
  datatype AccountPatch = AccountPatch(
    name: Option<string>, isCustomer: Option<bool>, isVendor: Option<bool>,
    customerBalance: Option<int>, vendorBalance: Option<int>, netBalance: Option<int>)

  const AccountUidPrefix := "ACC-"

  /** An account as inserted: the flags default to false and the balances to 0. */
  function InsertedAccount(id: string, uid: string, data: NewAccount): (a: Account)
    ensures a.id == id && a.accountUid == uid && a.name == data.name
    ensures a.isCustomer <==> data.isCustomer == Some(true)
    ensures a.isVendor <==> data.isVendor == Some(true)
    ensures data.customerBalance.None? ==> a.customerBalance == 0
    ensures data.vendorBalance.None? ==> a.vendorBalance == 0
    ensures data.netBalance.None? ==> a.netBalance == 0
    ensures data.customerBalance.Some? ==> a.customerBalance == data.customerBalance.value
    ensures data.vendorBalance.Some? ==> a.vendorBalance == data.vendorBalance.value
    ensures data.netBalance.Some? ==> a.netBalance == data.netBalance.value
  {
    Account(id, uid, data.name, data.isCustomer.GetOr(false), data.isVendor.GetOr(false),
            data.customerBalance.GetOr(0), data.vendorBalance.GetOr(0), data.netBalance.GetOr(0))
  }

  const EmptyAccountPatch := AccountPatch(None, None, None, None, None, None)

  /**
   * A partial update writes exactly the supplied fields: each supplied field takes the
   * patch's value, every other column keeps its value, and the id and uid never change.
   */
  function PatchAccount(a: Account, p: AccountPatch): (r: Account)
    ensures r.id == a.id && r.accountUid == a.accountUid
    ensures p == EmptyAccountPatch ==> r == a
    ensures p.name.Some? ==> r.name == p.name.value
    ensures p.isCustomer.Some? ==> r.isCustomer == p.isCustomer.value
    ensures p.isVendor.Some? ==> r.isVendor == p.isVendor.value
    ensures p.customerBalance.Some? ==> r.customerBalance == p.customerBalance.value
    ensures p.vendorBalance.Some? ==> r.vendorBalance == p.vendorBalance.value
    ensures p.netBalance.Some? ==> r.netBalance == p.netBalance.value
    ensures p.name.None? ==> r.name == a.name
    ensures p.isCustomer.None? ==> r.isCustomer == a.isCustomer
    ensures p.isVendor.None? ==> r.isVendor == a.isVendor
    ensures p.customerBalance.None? ==> r.customerBalance == a.customerBalance
    ensures p.vendorBalance.None? ==> r.vendorBalance == a.vendorBalance
    ensures p.netBalance.None? ==> r.netBalance == a.netBalance
  {
    a.(name := p.name.GetOr(a.name), isCustomer := p.isCustomer.GetOr(a.isCustomer),
       isVendor := p.isVendor.GetOr(a.isVendor), customerBalance := p.customerBalance.GetOr(a.customerBalance),
       vendorBalance := p.vendorBalance.GetOr(a.vendorBalance), netBalance := p.netBalance.GetOr(a.netBalance))
  }

  function AccountRow(a: Account): Row {
    map["id" := Str(a.id), "accountUid" := Str(a.accountUid), "name" := Str(a.name),
        "isCustomer" := Bool(a.isCustomer), "isVendor" := Bool(a.isVendor),
        "customerBalance" := Num(a.customerBalance), "vendorBalance" := Num(a.vendorBalance),
        "netBalance" := Num(a.netBalance)]
  }

  // ---------------------------------------------------------------------------
  // Products

  datatype Product = Product(
    id: string, sku: string, name: string, displayName: string,
    description: Option<string>, unitPrice: int, unitCost: Option<int>,
    stockQuantity: Option<int>, reorderLevel: Option<int>)

  datatype NewProduct = NewProduct(
    sku: string, name: string, displayName: Option<string>, description: Option<string>,
    unitPrice: int, unitCost: Option<int>, stockQuantity: Option<int>, reorderLevel: Option<int>)

  datatype ProductPatch = ProductPatch(
    name: Option<string>, displayName: Option<string>, description: Option<string>,
    unitPrice: Option<int>, unitCost: Option<int>, stockQuantity: Option<int>, reorderLevel: Option<int>)

  /**
   * A product as inserted: a falsy (absent or empty) display name is replaced by the
   * name; stock quantity defaults to 0 and reorder level to 5.
   */
  function InsertedProduct(id: string, data: NewProduct): (p: Product)
    ensures p.displayName == (if data.displayName.Some? && data.displayName.value != "" then data.displayName.value else data.name)
    ensures p.displayName != "" || data.name == ""
    ensures p.stockQuantity == Some(data.stockQuantity.GetOr(0))
    ensures p.reorderLevel == Some(data.reorderLevel.GetOr(5))
    ensures p.id == id && p.sku == data.sku && p.name == data.name && p.description == data.description
    ensures p.unitPrice == data.unitPrice && p.unitCost == data.unitCost
  {
    Product(id, data.sku, data.name,
            if data.displayName.Some? && data.displayName.value != "" then data.displayName.value else data.name,
            data.description, data.unitPrice, data.unitCost,
            Some(data.stockQuantity.GetOr(0)), Some(data.reorderLevel.GetOr(5)))
  }

  const EmptyProductPatch := ProductPatch(None, None, None, None, None, None, None)

  /**
   * A partial update writes exactly the supplied fields: each supplied field takes the
   * patch's value, every other column keeps its value, and the id and sku never change.
   */
  function PatchProduct(pr: Product, p: ProductPatch): (r: Product)
    ensures r.id == pr.id && r.sku == pr.sku
    ensures p == EmptyProductPatch ==> r == pr
    ensures p.name.Some? ==> r.name == p.name.value
    ensures p.displayName.Some? ==> r.displayName == p.displayName.value
    ensures p.unitPrice.Some? ==> r.unitPrice == p.unitPrice.value
    ensures p.description.Some? ==> r.description == p.description
    ensures p.unitCost.Some? ==> r.unitCost == p.unitCost
    ensures p.stockQuantity.Some? ==> r.stockQuantity == p.stockQuantity
    ensures p.reorderLevel.Some? ==> r.reorderLevel == p.reorderLevel
    ensures p.name.None? ==> r.name == pr.name
    ensures p.displayName.None? ==> r.displayName == pr.displayName
    ensures p.description.None? ==> r.description == pr.description
    ensures p.unitPrice.None? ==> r.unitPrice == pr.unitPrice
    ensures p.unitCost.None? ==> r.unitCost == pr.unitCost
    ensures p.stockQuantity.None? ==> r.stockQuantity == pr.stockQuantity
    ensures p.reorderLevel.None? ==> r.reorderLevel == pr.reorderLevel
  {
    pr.(name := p.name.GetOr(pr.name), displayName := p.displayName.GetOr(pr.displayName),
        description := if p.description.Some? then p.description else pr.description,
        unitPrice := p.unitPrice.GetOr(pr.unitPrice),
        unitCost := if p.unitCost.Some? then p.unitCost else pr.unitCost,
        stockQuantity := if p.stockQuantity.Some? then p.stockQuantity else pr.stockQuantity,
        reorderLevel := if p.reorderLevel.Some? then p.reorderLevel else pr.reorderLevel)
  }

  function OptionalNum(v: Option<int>): Value {
    match v case None => Null case Some(n) => Num(n)
  }

  function OptionalStr(v: Option<string>): Value {
    match v case None => Null case Some(s) => Str(s)
  }

  function ProductRow(p: Product): Row {
    map["id" := Str(p.id), "sku" := Str(p.sku), "name" := Str(p.name), "displayName" := Str(p.displayName),
        "description" := OptionalStr(p.description), "unitPrice" := Num(p.unitPrice),
        "unitCost" := OptionalNum(p.unitCost), "stockQuantity" := OptionalNum(p.stockQuantity),
        "reorderLevel" := OptionalNum(p.reorderLevel)]
  }

  /** A product row with the inventory figures `getProductsWithInventory` adds. */
  datatype ProductWithInventory = ProductWithInventory(
    product: Product, stockAvailable: int, committedStock: int, soldStock: int, stockValue: int)

  /**
   * Stock available is the stock quantity, 0 when absent; committed and sold stock
   * are 0; the stock value is the available stock times the unit cost, 0 when absent.
   */
  function WithInventory(p: Product): (r: ProductWithInventory)
    ensures r.product == p
    ensures p.stockQuantity.None? ==> r.stockAvailable == 0 && r.stockValue == 0
    ensures p.stockQuantity.Some? ==> r.stockAvailable == p.stockQuantity.value
    ensures r.committedStock == 0 && r.soldStock == 0
    ensures p.unitCost.None? ==> r.stockValue == 0
    ensures p.unitCost.Some? ==> r.stockValue == r.stockAvailable * p.unitCost.value
  {
    var stock := p.stockQuantity.GetOr(0);
    ProductWithInventory(p, stock, 0, 0, stock * p.unitCost.GetOr(0))
  }

  // ---------------------------------------------------------------------------
  // Estimates, invoices and purchase orders

  /** The three document tables share one shape; the kind names the table. */
  datatype DocKind = Estimate | Invoice | PurchaseOrder {
    function Table(): string {
      match this
      case Estimate => "estimates"
      case Invoice => "invoices"
      case PurchaseOrder => "purchase_orders"
    }
    function LineTable(): string {
      match this
      case Estimate => "estimate_line_items"
      case Invoice => "invoice_line_items"
      case PurchaseOrder => "purchase_order_lines"
    }
    /** The column of a line (and of a payment) naming its document. */
    function ParentKey(): string {
      match this
      case Estimate => "estimateId"
      case Invoice => "invoiceId"
      case PurchaseOrder => "purchaseOrderId"
    }
    /** The price column of a line: purchase-order lines carry a unit cost. */
    function PriceKey(): string {
      match this
      case PurchaseOrder => "unitCost"
      case _ => "unitPrice"
    }
    function UidPrefix(): string {
      match this
      case Estimate => "EST-"
      case Invoice => "INV-"
      case PurchaseOrder => "PO-"
    }
    function UidKey(): string {
      match this
      case Estimate => "estimateUid"
      case Invoice => "invoiceUid"
      case PurchaseOrder => "poUid"
    }
    function StatusKey(): string {
      match this
      case Estimate => "status"
      case _ => "paymentStatus"
    }
    function DefaultStatus(): string {
      match this
      case Estimate => "draft"
      case _ => "pending"
    }
    /** The record type queued for PDF generation; estimates queue none. */
    function PdfRecordType(): Option<string> {
      match this
      case Estimate => None
      case Invoice => Some("invoice")
      case PurchaseOrder => Some("purchase_order")
    }
  }

  datatype Document = Document(
    id: string, uid: string, accountId: string, totalAmount: int, balance: int, status: string)

  datatype NewDocument = NewDocument(
    accountId: string, totalAmount: Option<int>, balance: Option<int>, status: Option<string>)

  datatype DocumentPatch = DocumentPatch(
    accountId: Option<string>, totalAmount: Option<int>, balance: Option<int>, status: Option<string>)

  /** Totals and balance default to 0; the status to "draft" for an estimate, "pending" otherwise. */
  function InsertedDocument(kind: DocKind, id: string, uid: string, data: NewDocument): (d: Document)
    ensures d.id == id && d.uid == uid && d.accountId == data.accountId
    ensures d.totalAmount == (if data.totalAmount.Some? then data.totalAmount.value else 0)
    ensures d.balance == (if data.balance.Some? then data.balance.value else 0)
    ensures data.status.None? ==> d.status == (if kind == Estimate then "draft" else "pending")
    ensures data.status.Some? ==> d.status == data.status.value
  {
    Document(id, uid, data.accountId, data.totalAmount.GetOr(0), data.balance.GetOr(0),
             data.status.GetOr(kind.DefaultStatus()))
  }

  const EmptyDocumentPatch := DocumentPatch(None, None, None, None)

  /**
   * A partial update writes exactly the supplied fields: each supplied field takes the
   * patch's value, every other column keeps its value, and the id and uid never change.
   */
  function PatchDocument(d: Document, p: DocumentPatch): (r: Document)
    ensures r.id == d.id && r.uid == d.uid
    ensures p == EmptyDocumentPatch ==> r == d
    ensures p.accountId.Some? ==> r.accountId == p.accountId.value
    ensures p.totalAmount.Some? ==> r.totalAmount == p.totalAmount.value
    ensures p.balance.Some? ==> r.balance == p.balance.value
    ensures p.status.Some? ==> r.status == p.status.value
    ensures p.accountId.None? ==> r.accountId == d.accountId
    ensures p.totalAmount.None? ==> r.totalAmount == d.totalAmount
    ensures p.balance.None? ==> r.balance == d.balance
    ensures p.status.None? ==> r.status == d.status
  {
    d.(accountId := p.accountId.GetOr(d.accountId), totalAmount := p.totalAmount.GetOr(d.totalAmount),
       balance := p.balance.GetOr(d.balance), status := p.status.GetOr(d.status))
  }

  function DocumentRow(kind: DocKind, d: Document): Row {
    map["id" := Str(d.id), kind.UidKey() := Str(d.uid), "accountId" := Str(d.accountId),
        "totalAmount" := Num(d.totalAmount), "balance" := Num(d.balance), kind.StatusKey() := Str(d.status)]
  }

  // ---------------------------------------------------------------------------
  // Line items of a document

  datatype Line = Line(id: string, parentId: string, quantity: int, price: int, lineTotal: int)

  datatype NewLine = NewLine(parentId: string, quantity: int, price: int)

  datatype LinePatch = LinePatch(
    parentId: Option<string>, quantity: Option<int>, price: Option<int>, lineTotal: Option<int>)

  /** A line as inserted: its total is quantity times price, whatever total the caller sent. */
  function InsertedLine(id: string, data: NewLine): (l: Line)
    ensures l.lineTotal == l.quantity * l.price
    ensures l.id == id && l.parentId == data.parentId
    ensures l.quantity == data.quantity && l.price == data.price
  {
    Line(id, data.parentId, data.quantity, data.price, data.quantity * data.price)
  }

  /**
   * A line after a partial update. When the patch supplies a quantity or a price, the
   * total is recomputed from the supplied values, each falling back to the stored
   * one; otherwise the total is the supplied one, or the stored one.
   */
  function PatchLine(l: Line, p: LinePatch): (r: Line)
    ensures r.id == l.id
    ensures r.parentId == (if p.parentId.Some? then p.parentId.value else l.parentId)
    ensures p.quantity.Some? || p.price.Some? ==> r.lineTotal == r.quantity * r.price
    ensures p.quantity.None? && p.price.None? ==>
            r.quantity == l.quantity && r.price == l.price &&
            r.lineTotal == (if p.lineTotal.Some? then p.lineTotal.value else l.lineTotal)
  {
    var quantity := p.quantity.GetOr(l.quantity);
    var price := p.price.GetOr(l.price);
    var total := if p.quantity.Some? || p.price.Some? then quantity * price else p.lineTotal.GetOr(l.lineTotal);
    Line(l.id, p.parentId.GetOr(l.parentId), quantity, price, total)
  }

  function LineRow(kind: DocKind, l: Line): Row {
    map["id" := Str(l.id), kind.ParentKey() := Str(l.parentId), "quantity" := Num(l.quantity),
        kind.PriceKey() := Num(l.price), "lineTotal" := Num(l.lineTotal)]
  }

  /** A patch that supplies a quantity or a price leaves the total equal to quantity times price. */
  lemma PatchRecomputesTotal(l: Line, p: LinePatch)
    requires p.quantity.Some? || p.price.Some?
    ensures var r := PatchLine(l, p);
            r.lineTotal == r.quantity * r.price &&
            r.quantity == (if p.quantity.Some? then p.quantity.value else l.quantity) &&
            r.price == (if p.price.Some? then p.price.value else l.price)
  {
  }

  /** A patch without quantity, price or total keeps a consistent line consistent. */
  lemma PatchKeepsTotalConsistent(l: Line, p: LinePatch)
    requires l.lineTotal == l.quantity * l.price
    requires p.lineTotal.None? || p.quantity.Some? || p.price.Some?
    ensures PatchLine(l, p).lineTotal == PatchLine(l, p).quantity * PatchLine(l, p).price
  {
  }

  /**
   * An explicit total is written as given when neither quantity nor price is
   * supplied, so the stored total can disagree with quantity times price.
   */
  lemma ExplicitTotalIsStoredAsGiven(l: Line, total: int)
    ensures PatchLine(l, LinePatch(None, None, None, Some(total))).lineTotal == total
    ensures PatchLine(l, LinePatch(None, None, None, Some(total))).quantity == l.quantity
    ensures PatchLine(l, LinePatch(None, None, None, Some(total))).price == l.price
  {
  }

  // ---------------------------------------------------------------------------
  // Payments and credits

  /** Customer payments settle invoices; vendor payments settle purchase orders. */
  datatype PayKind = CustomerPayment | VendorPayment {
    function Table(): string {
      match this
      case CustomerPayment => "customer_payments"
      case VendorPayment => "vendor_payments"
    }
    function ParentKey(): string {
      match this
      case CustomerPayment => "invoiceId"
      case VendorPayment => "purchaseOrderId"
    }
  }

  /** `status` exists only on customer payments (default "pending"). */
  datatype Payment = Payment(id: string, accountId: string, parentId: string, amount: int, status: Option<string>)

  datatype NewPayment = NewPayment(accountId: string, parentId: string, amount: int, status: Option<string>)

  datatype PaymentPatch = PaymentPatch(
    accountId: Option<string>, parentId: Option<string>, amount: Option<int>, status: Option<string>)

  /** A payment as inserted: only a customer payment has a status, "pending" unless supplied. */
  function InsertedPayment(kind: PayKind, id: string, data: NewPayment): (r: Payment)
    ensures r.id == id && r.accountId == data.accountId && r.parentId == data.parentId && r.amount == data.amount
    ensures r.status.Some? <==> kind == CustomerPayment
    ensures kind == CustomerPayment && data.status.None? ==> r.status == Some("pending")
    ensures kind == CustomerPayment && data.status.Some? ==> r.status == data.status
  {
    Payment(id, data.accountId, data.parentId, data.amount,
            if kind == CustomerPayment then Some(data.status.GetOr("pending")) else None)
  }

  /**
   * A partial update writes exactly the supplied fields, every other column keeping its
   * value; the id never changes, and a vendor payment, which has no status column,
   * never gains a status.
   */
  function PatchPayment(kind: PayKind, pay: Payment, p: PaymentPatch): (r: Payment)
    ensures r.id == pay.id
    ensures kind == VendorPayment ==> r.status == pay.status
    ensures kind == CustomerPayment && p.status.Some? ==> r.status == p.status
    ensures p == PaymentPatch(None, None, None, None) ==> r == pay
    ensures p.accountId.Some? ==> r.accountId == p.accountId.value
    ensures p.parentId.Some? ==> r.parentId == p.parentId.value
    ensures p.amount.Some? ==> r.amount == p.amount.value
    ensures p.accountId.None? ==> r.accountId == pay.accountId
    ensures p.parentId.None? ==> r.parentId == pay.parentId
    ensures p.amount.None? ==> r.amount == pay.amount
    ensures p.status.None? ==> r.status == pay.status
  {
    pay.(accountId := p.accountId.GetOr(pay.accountId), parentId := p.parentId.GetOr(pay.parentId),
         amount := p.amount.GetOr(pay.amount),
         status := if kind == CustomerPayment && p.status.Some? then p.status else pay.status)
  }

  function PaymentRow(kind: PayKind, p: Payment): Row {
    var row := map["id" := Str(p.id), "accountId" := Str(p.accountId), kind.ParentKey() := Str(p.parentId),
                   "amount" := Num(p.amount)];
    if p.status.Some? then row["status" := Str(p.status.value)] else row
  }

  /** A credit may apply to an invoice, an estimate, both or neither. */
  datatype Credit = Credit(id: string, accountId: string, invoiceId: Option<string>, estimateId: Option<string>, amount: int)

  datatype NewCredit = NewCredit(accountId: string, invoiceId: Option<string>, estimateId: Option<string>, amount: int)

  datatype CreditPatch = CreditPatch(
    accountId: Option<string>, invoiceId: Option<string>, estimateId: Option<string>, amount: Option<int>)

  function InsertedCredit(id: string, data: NewCredit): (c: Credit)
    ensures c.id == id && c.accountId == data.accountId && c.amount == data.amount
    ensures c.invoiceId == data.invoiceId && c.estimateId == data.estimateId
  {
    Credit(id, data.accountId, data.invoiceId, data.estimateId, data.amount)
  }

  /**
   * A partial update writes exactly the supplied fields: each supplied field takes the
   * patch's value, every other column keeps its value, and the id never changes.
   */
  function PatchCredit(c: Credit, p: CreditPatch): (r: Credit)
    ensures r.id == c.id
    ensures p == CreditPatch(None, None, None, None) ==> r == c
    ensures p.accountId.Some? ==> r.accountId == p.accountId.value
    ensures p.invoiceId.Some? ==> r.invoiceId == p.invoiceId
    ensures p.estimateId.Some? ==> r.estimateId == p.estimateId
    ensures p.amount.Some? ==> r.amount == p.amount.value
    ensures p.accountId.None? ==> r.accountId == c.accountId
    ensures p.invoiceId.None? ==> r.invoiceId == c.invoiceId
    ensures p.estimateId.None? ==> r.estimateId == c.estimateId
    ensures p.amount.None? ==> r.amount == c.amount
  {
    c.(accountId := p.accountId.GetOr(c.accountId),
       invoiceId := if p.invoiceId.Some? then p.invoiceId else c.invoiceId,
       estimateId := if p.estimateId.Some? then p.estimateId else c.estimateId,
       amount := p.amount.GetOr(c.amount))
  }

  function CreditRow(c: Credit): Row {
    map["id" := Str(c.id), "accountId" := Str(c.accountId), "invoiceId" := OptionalStr(c.invoiceId),
        "estimateId" := OptionalStr(c.estimateId), "amount" := Num(c.amount)]
  }

  // ---------------------------------------------------------------------------
  // Generated uids and the PDF queue

  function Min(a: int, b: int): int { if a <= b then a else b }

  /**
   * `PREFIX-` followed by the first (at most) six characters of the generated id,
   * upper-cased.
   */
  function Uid(prefix: string, generated: string): (uid: string)
    ensures Text.StartsWith(uid, prefix)
    ensures |uid| == |prefix| + Min(6, |generated|)
    ensures forall i :: |prefix| <= i < |uid| ==> uid[i] == Text.UpperChar(generated[i - |prefix|])
  {
    prefix + Text.ToUpper(generated[..Min(6, |generated|)])
  }

  /** Uids made with different prefixes among ACC-, EST-, INV- and PO- never coincide. */
  lemma UidPrefixesSeparate(p1: string, p2: string, g1: string, g2: string)
    requires p1 in {AccountUidPrefix, "EST-", "INV-", "PO-"} && p2 in {AccountUidPrefix, "EST-", "INV-", "PO-"}
    requires p1 != p2
    ensures Uid(p1, g1) != Uid(p2, g2)
  {
    assert Uid(p1, g1)[0] == p1[0];
    assert Uid(p2, g2)[0] == p2[0];
  }

  /** Two generated ids that agree, up to case, on their first six characters give the same uid. */
  lemma {:induction false} UidDependsOnSixCharacters(prefix: string, g1: string, g2: string)
    requires |g1| >= 6 && |g2| >= 6
    requires forall i :: 0 <= i < 6 ==> Text.UpperChar(g1[i]) == Text.UpperChar(g2[i])
    ensures Uid(prefix, g1) == Uid(prefix, g2)
  {
    var u1, u2 := Uid(prefix, g1), Uid(prefix, g2);
    assert |u1| == |u2|;
    forall i | 0 <= i < |u1| ensures u1[i] == u2[i] {
      if i < |prefix| {
        assert u1[..|prefix|] == prefix && u2[..|prefix|] == prefix;
        assert u1[i] == u1[..|prefix|][i];
        assert u2[i] == u2[..|prefix|][i];
      }
    }
  }

  /** A row of `pdf_queue`: which record to render, and the job status. */
  datatype PdfJob = PdfJob(recordType: string, recordId: string, status: string)

  /** Failures the database reports for an insert. */
  datatype StorageError = UniqueViolation(column: string)
}

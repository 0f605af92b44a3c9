/**
 * What happens when the events `DatabaseStorage` sends reach `WebhookService`: each
 * storage event is dispatched, and the recompute calls it leads to follow from the
 * row it carries. Because storage never puts the old row into an UPDATE event, the
 * dispatcher's balance-change branches for invoices, purchase orders and accounts
 * never fire for updates made through storage.
 */
module Pipeline {
  import opened Wrappers
  import opened JsValues
  import opened Records
  import opened Webhooks
  import opened Storage

  /** The event a storage method sends for a row: the new row on INSERT/UPDATE, the old row on DELETE. */
  function EventFor(table: string, id: string, op: string, row: Row): (e: Payload)
    requires op == INSERT || op == UPDATE || op == DELETE
    ensures IsStorageEvent(e)
    ensures op != DELETE ==> e == Payload(table, id, op, Some(row), None)
    ensures op == DELETE ==> e == Payload(table, id, op, None, Some(row))
  {
    if op == DELETE then Payload(table, id, op, None, Some(row))
    else Payload(table, id, op, Some(row), None)
  }

  /** The finance-metrics function that recomputes a document of this kind. */
  function MetricsFn(kind: DocKind): string {
    match kind
    case Estimate => UpdateEstimateFinanceMetrics
    case Invoice => UpdateInvoiceFinanceMetrics
    case PurchaseOrder => UpdatePoFinanceMetrics
  }

  /** No event storage sends makes the dispatcher throw. */
  lemma StorageEventsNeverThrow(e: Payload)
    requires IsStorageEvent(e)
    ensures Dispatch(e).Success?
  {
  }

  /** Nothing in a consistent store's outbox makes the dispatcher throw. */
  lemma {:induction false} OutboxNeverThrows(outbox: seq<Payload>)
    requires OutboxValid(outbox)
    ensures forall i :: 0 <= i < |outbox| ==> Dispatch(outbox[i]).Success?
  {
    forall i | 0 <= i < |outbox| ensures Dispatch(outbox[i]).Success? {
      StorageEventsNeverThrow(outbox[i]);
    }
  }

  /**
   * An UPDATE sent by storage for an invoice, a purchase order or an account calls
   * nothing: the balance-change test needs the old row, which storage never sends.
   */
  lemma StorageUpdatesSkipBalanceRecompute(e: Payload)
    requires IsStorageEvent(e) && e.op == UPDATE
    requires e.table in {"invoices", "purchase_orders", "accounts"}
    ensures Dispatch(e) == Success([])
  {
  }

  lemma LineRowParent(kind: DocKind, l: Line)
    ensures Get(LineRow(kind, l), kind.ParentKey()) == Str(l.parentId)
  {
    match kind
    case Estimate =>
    case Invoice =>
    case PurchaseOrder =>
  }

  /**
   * Any write of a line item, as storage sends it, recomputes the finance metrics of
   * the document the line names (when it names one).
   */
  lemma {:induction false} LineEventRecomputesParent(kind: DocKind, op: string, l: Line)
    requires op == INSERT || op == UPDATE || op == DELETE
    ensures Dispatch(EventFor(kind.LineTable(), l.id, op, LineRow(kind, l))) ==
            Success(if l.parentId != "" then [Call(MetricsFn(kind), [Str(l.parentId)])] else [])
  {
    LineRowParent(kind, l);
    var e := EventFor(kind.LineTable(), l.id, op, LineRow(kind, l));
    ChildTableRouting(e);
  }

  /**
   * Moving a line to another document through `UpdateLine` recomputes only the new
   * document: the event carries no old row, so the document the line left is never
   * named in a call.
   */
  lemma {:induction false} MovedLineLeavesOldParentUnrecomputed(kind: DocKind, l: Line, patch: LinePatch)
    requires patch.parentId.Some? && patch.parentId.value != l.parentId
    ensures var moved := PatchLine(l, patch);
            var calls := Dispatch(EventFor(kind.LineTable(), l.id, UPDATE, LineRow(kind, moved)));
            calls.Success? && forall c :: c in calls.value ==> c.params != [Str(l.parentId)]
  {
    var moved := PatchLine(l, patch);
    LineEventRecomputesParent(kind, UPDATE, moved);
  }

  lemma DocumentRowAccount(kind: DocKind, d: Document)
    ensures Get(DocumentRow(kind, d), "accountId") == Str(d.accountId)
  {
    match kind
    case Estimate =>
    case Invoice =>
    case PurchaseOrder =>
  }

  /**
   * Creating or deleting an invoice (purchase order) through storage recomputes the
   * customer (vendor) balance of its account; updating it recomputes nothing; estimate
   * events are not routed at all.
   */
  lemma {:induction false} DocumentEventRecomputesAccount(kind: DocKind, op: string, d: Document)
    requires op == INSERT || op == UPDATE || op == DELETE
    ensures var calls := Dispatch(EventFor(kind.Table(), d.id, op, DocumentRow(kind, d)));
            calls == Success(
              if kind == Estimate || op == UPDATE then []
              else if kind == Invoice then [Call(UpdateAccountCustomerBalance, [Str(d.accountId)])]
              else [Call(UpdateAccountVendorBalance, [Str(d.accountId)])])
  {
    DocumentRowAccount(kind, d);
    var e := EventFor(kind.Table(), d.id, op, DocumentRow(kind, d));
    if kind != Estimate {
      BalanceTableRouting(e);
    } else {
      UnroutedPayloads(e);
    }
  }

  lemma PaymentRowParent(kind: PayKind, p: Payment)
    ensures Get(PaymentRow(kind, p), kind.ParentKey()) == Str(p.parentId)
  {
    match kind
    case CustomerPayment =>
    case VendorPayment =>
  }

  /**
   * A customer (vendor) payment event recomputes the finance metrics of the invoice
   * (purchase order) it names, on any write.
   */
  lemma {:induction false} PaymentEventRecomputesParent(kind: PayKind, op: string, p: Payment)
    requires op == INSERT || op == UPDATE || op == DELETE
    ensures Dispatch(EventFor(kind.Table(), p.id, op, PaymentRow(kind, p))) ==
            Success(if p.parentId == "" then []
                    else [Call(if kind == CustomerPayment then UpdateInvoiceFinanceMetrics else UpdatePoFinanceMetrics,
                               [Str(p.parentId)])])
  {
    PaymentRowParent(kind, p);
    var e := EventFor(kind.Table(), p.id, op, PaymentRow(kind, p));
    ChildTableRouting(e);
  }

  /** A credit event recomputes the invoice it names and then the estimate it names. */
  lemma {:induction false} CreditEventRecomputes(op: string, c: Credit)
    requires op == INSERT || op == UPDATE || op == DELETE
    ensures Dispatch(EventFor("customer_credits", c.id, op, CreditRow(c))) ==
            Success((if c.invoiceId.Some? && c.invoiceId.value != ""
                     then [Call(UpdateInvoiceFinanceMetrics, [Str(c.invoiceId.value)])] else [])
                    + (if c.estimateId.Some? && c.estimateId.value != ""
                       then [Call(UpdateEstimateFinanceMetrics, [Str(c.estimateId.value)])] else []))
  {
    var e := EventFor("customer_credits", c.id, op, CreditRow(c));
    assert Get(CreditRow(c), "invoiceId") == OptionalStr(c.invoiceId);
    assert Get(CreditRow(c), "estimateId") == OptionalStr(c.estimateId);
    CreditRouting(e);
  }

  /** Account and product events sent by storage call nothing. */
  lemma AccountAndProductEventsCallNothing(op: string, a: Account, p: Product)
    requires op == INSERT || op == UPDATE || op == DELETE
    ensures Dispatch(EventFor("accounts", a.id, op, AccountRow(a))) == Success([])
    ensures Dispatch(EventFor("products", p.id, op, ProductRow(p))) == Success([])
  {
  }
}

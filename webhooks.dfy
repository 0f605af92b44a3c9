/**
 * The change-event dispatcher of `WebhookService`. A payload names a table, a row
 * id, an operation and the new and old rows; `Dispatch` decides which named database
 * recompute functions are called, in what order and with which argument. The
 * database functions themselves are opaque: `Database` is any oracle that answers a
 * query text and its parameters with result rows or a raised error.
 */
module Webhooks {
  import opened Wrappers
  import opened JsValues
  import Text

  const INSERT := "INSERT"
  const UPDATE := "UPDATE"
  const DELETE := "DELETE"

  // The database functions the dispatcher and the two wrappers name.
  const UpdateInvoiceFinanceMetrics := "update_invoice_finance_metrics"
  const UpdateEstimateFinanceMetrics := "update_estimate_finance_metrics"
  const UpdatePoFinanceMetrics := "update_po_finance_metrics"
  const UpdateAccountCustomerBalance := "update_account_customer_balance"
  const UpdateAccountVendorBalance := "update_account_vendor_balance"
  const UpdateAccountNetBalance := "update_account_net_balance"
  const HandleMessageProductLink := "handle_message_product_link_db"
  const ConvertEstimateToInvoiceDb := "convert_estimate_to_invoice_db"
  const ApproveCustomerPaymentDb := "approve_customer_payment_db"

  /** `{table, id, op, row?, old_row?}`; an absent row is `undefined` or `null`. */
  datatype Payload = Payload(table: string, id: string, op: string, row: Option<Row>, oldRow: Option<Row>)

  /** One call `SELECT * FROM fn($1,…,$n)` with its parameter values. */
  datatype Call = Call(fn: string, params: seq<Value>)

  /** What a dispatch can throw: reading a property of an absent row, or a database error. */
  datatype Error = TypeError(message: string) | DatabaseError(message: string)

  predicate IsWriteOp(op: string) {
    op == INSERT || op == UPDATE || op == DELETE
  }

  /** `row?.key || old_row?.key`: the new row's value when truthy, else the old row's. */
  function ResolveKey(p: Payload, key: string): Value {
    Or(Field(p.row, key), Field(p.oldRow, key))
  }

  /** `if (v) await call(fn, v)` */
  function CallIfTruthy(fn: string, v: Value): seq<Call> {
    if Truthy(v) then [Call(fn, [v])] else []
  }

  /** The rule for a child table: recompute the parent named by `key` on any write. */
  function ChildRule(p: Payload, key: string, fn: string): seq<Call> {
    if IsWriteOp(p.op) then CallIfTruthy(fn, ResolveKey(p, key)) else []
  }

  /** The rule for `invoices` and `purchase_orders`: recompute the owning account's balance. */
  function BalanceRule(p: Payload, fn: string): Result<seq<Call>, Error> {
    if p.op == UPDATE && p.row.Some? && p.oldRow.Some?
       && !StrictEquals(Get(p.row.value, "balance"), Get(p.oldRow.value, "balance")) then
      Success([Call(fn, [Get(p.row.value, "accountId")])])
    else if p.op == INSERT then
      if p.row.Some? then Success([Call(fn, [Get(p.row.value, "accountId")])])
      else Failure(TypeError("Cannot read properties of undefined (reading 'accountId')"))
    else if p.op == DELETE then
      if p.oldRow.Some? then Success([Call(fn, [Get(p.oldRow.value, "accountId")])])
      else Failure(TypeError("Cannot read properties of undefined (reading 'accountId')"))
    else Success([])
  }

  predicate IsBalanceTable(table: string) {
    table == "invoices" || table == "purchase_orders"
  }

  /** The tables the switch names. */
  predicate IsRoutedTable(table: string) {
    table in {"invoice_line_items", "customer_payments", "invoices", "customer_credits",
              "estimate_line_items", "purchase_order_lines", "vendor_payments",
              "purchase_orders", "messages", "accounts"}
  }

  /**
   * `processWebhook`'s switch: the calls it makes, in order, or the TypeError it
   * raises before making any. It fails only on an INSERT without `row` or a DELETE
   * without `old_row` of an invoice or purchase order, and makes at most two calls,
   * two only for a customer credit.
   */
  function Dispatch(p: Payload): (r: Result<seq<Call>, Error>)
    ensures r.Failure? <==>
            IsBalanceTable(p.table) &&
            ((p.op == INSERT && p.row.None?) || (p.op == DELETE && p.oldRow.None?))
    ensures r.Failure? ==> r.error.TypeError?
    ensures r.Success? ==> |r.value| <= 2
    ensures r.Success? && |r.value| == 2 ==> p.table == "customer_credits"
  {
    if p.table == "invoice_line_items" then
      Success(ChildRule(p, "invoiceId", UpdateInvoiceFinanceMetrics))
    else if p.table == "customer_payments" then
      Success(ChildRule(p, "invoiceId", UpdateInvoiceFinanceMetrics))
    else if p.table == "invoices" then
      BalanceRule(p, UpdateAccountCustomerBalance)
    else if p.table == "customer_credits" then
      Success(ChildRule(p, "invoiceId", UpdateInvoiceFinanceMetrics)
              + ChildRule(p, "estimateId", UpdateEstimateFinanceMetrics))
    else if p.table == "estimate_line_items" then
      Success(ChildRule(p, "estimateId", UpdateEstimateFinanceMetrics))
    else if p.table == "purchase_order_lines" then
      Success(ChildRule(p, "purchaseOrderId", UpdatePoFinanceMetrics))
    else if p.table == "vendor_payments" then
      Success(ChildRule(p, "purchaseOrderId", UpdatePoFinanceMetrics))
    else if p.table == "purchase_orders" then
      BalanceRule(p, UpdateAccountVendorBalance)
    else if p.table == "messages" then
      if (p.op == INSERT || p.op == UPDATE) && p.row.Some? && Truthy(Get(p.row.value, "extractedData")) then
        Success([Call(HandleMessageProductLink, [Str(p.id)])])
      else Success([])
    else if p.table == "accounts" then
      if p.op == UPDATE && p.row.Some? && p.oldRow.Some?
         && (!StrictEquals(Get(p.row.value, "customerBalance"), Get(p.oldRow.value, "customerBalance"))
             || !StrictEquals(Get(p.row.value, "vendorBalance"), Get(p.oldRow.value, "vendorBalance"))) then
        Success([Call(UpdateAccountNetBalance, [Str(p.id)])])
      else Success([])
    else Success([])
  }

  // ---------------------------------------------------------------------------
  // The routing table, property by property

  /** The five single-parent child tables: their foreign key and recompute function. */
  function ChildRoute(table: string): Option<(string, string)> {
    if table == "invoice_line_items" || table == "customer_payments" then
      Some(("invoiceId", UpdateInvoiceFinanceMetrics))
    else if table == "estimate_line_items" then
      Some(("estimateId", UpdateEstimateFinanceMetrics))
    else if table == "purchase_order_lines" || table == "vendor_payments" then
      Some(("purchaseOrderId", UpdatePoFinanceMetrics))
    else None
  }

  /**
   * A child table makes at most one call, exactly when the operation is a write and
   * the new or the old row carries a truthy foreign key; the call goes to the
   * table's recompute function with the new row's key when that is truthy, else
   * with the old row's.
   */
  lemma ChildTableRouting(p: Payload)
    requires ChildRoute(p.table).Some?
    ensures var (key, fn) := ChildRoute(p.table).value;
            var newKey, oldKey := Field(p.row, key), Field(p.oldRow, key);
            && Dispatch(p).Success?
            && |Dispatch(p).value| <= 1
            && (|Dispatch(p).value| == 1 <==> IsWriteOp(p.op) && (Truthy(newKey) || Truthy(oldKey)))
            && (|Dispatch(p).value| == 1 ==>
                  Dispatch(p).value[0] == Call(fn, [if Truthy(newKey) then newKey else oldKey]))
  {
  }

  /**
   * A customer credit recomputes its invoice when an invoice id resolves, then its
   * estimate when an estimate id resolves, never in the other order.
   */
  lemma CreditRouting(p: Payload)
    requires p.table == "customer_credits"
    ensures var inv, est := ResolveKey(p, "invoiceId"), ResolveKey(p, "estimateId");
            Dispatch(p) == Success(
              if IsWriteOp(p.op) then
                (if Truthy(inv) then [Call(UpdateInvoiceFinanceMetrics, [inv])] else [])
                + (if Truthy(est) then [Call(UpdateEstimateFinanceMetrics, [est])] else [])
              else [])
    ensures Dispatch(p).Success? && |Dispatch(p).value| == 2 ==>
            Dispatch(p).value[0].fn == UpdateInvoiceFinanceMetrics &&
            Dispatch(p).value[1].fn == UpdateEstimateFinanceMetrics
  {
  }

  /**
   * Invoices and purchase orders: INSERT recomputes the account of `row`, DELETE
   * that of `old_row`, and UPDATE only when both rows are present and the balance
   * changed; an UPDATE that keeps the balance calls nothing.
   */
  lemma BalanceTableRouting(p: Payload)
    requires IsBalanceTable(p.table)
    ensures var fn := if p.table == "invoices" then UpdateAccountCustomerBalance
                      else UpdateAccountVendorBalance;
            && (p.op == INSERT && p.row.Some? ==>
                  Dispatch(p) == Success([Call(fn, [Get(p.row.value, "accountId")])]))
            && (p.op == DELETE && p.oldRow.Some? ==>
                  Dispatch(p) == Success([Call(fn, [Get(p.oldRow.value, "accountId")])]))
            && (p.op == UPDATE ==>
                  Dispatch(p) == (
                    if p.row.Some? && p.oldRow.Some?
                       && !StrictEquals(Get(p.row.value, "balance"), Get(p.oldRow.value, "balance"))
                    then Success([Call(fn, [Get(p.row.value, "accountId")])])
                    else Success([])))
  {
  }

  /**
   * Accounts: only an UPDATE with both rows whose customer or vendor balance
   * changed recomputes the net balance, keyed by the payload id.
   */
  lemma AccountRouting(p: Payload)
    requires p.table == "accounts"
    ensures Dispatch(p).Success?
    ensures |Dispatch(p).value| == 1 <==>
            p.op == UPDATE && p.row.Some? && p.oldRow.Some? &&
            (!StrictEquals(Get(p.row.value, "customerBalance"), Get(p.oldRow.value, "customerBalance"))
             || !StrictEquals(Get(p.row.value, "vendorBalance"), Get(p.oldRow.value, "vendorBalance")))
    ensures |Dispatch(p).value| == 1 ==> Dispatch(p).value == [Call(UpdateAccountNetBalance, [Str(p.id)])]
    ensures p.op == INSERT || p.op == DELETE ==> Dispatch(p) == Success([])
  {
  }

  /** Messages: a product link is handled, keyed by the payload id, only on INSERT or UPDATE with truthy extracted data. */
  lemma MessageRouting(p: Payload)
    requires p.table == "messages"
    ensures Dispatch(p) == Success(
              if (p.op == INSERT || p.op == UPDATE) && Truthy(Field(p.row, "extractedData"))
              then [Call(HandleMessageProductLink, [Str(p.id)])]
              else [])
  {
  }

  /** Tables the switch does not name, and operations other than the three writes, call nothing. */
  lemma UnroutedPayloads(p: Payload)
    requires !IsRoutedTable(p.table) || !IsWriteOp(p.op)
    ensures Dispatch(p) == Success([])
  {
  }

  // ---------------------------------------------------------------------------
  // Executing the calls

  /** `params.map((_, i) => '$' + (i + 1)).join(',')` */
  function Placeholders(n: nat): (r: string)
    ensures r == "" <==> n == 0
    ensures n > 0 ==> r[0] == '$'
  {
    Text.Join(seq(n, i requires 0 <= i < n => "$" + Text.NatToString(i + 1)), ",")
  }

  /** `SELECT * FROM fn($1,…,$n)` */
  function QueryText(c: Call): (q: string)
    ensures Text.StartsWith(q, "SELECT * FROM " + c.fn + "(")
    ensures q[|q| - 1] == ')'
    ensures |q| == |"SELECT * FROM " + c.fn + "("| + |Placeholders(|c.params|)| + 1
  {
    "SELECT * FROM " + c.fn + "(" + Placeholders(|c.params|) + ")"
  }

  /** The parameter list of a call with no parameters is empty; otherwise its comma-separated parts are `$1`, …, `$n` in order. */
  lemma PlaceholdersNumbered(n: nat)
    ensures n == 0 ==> Placeholders(n) == ""
    ensures n > 0 ==>
            var parts := Text.Split(Placeholders(n), ',');
            |parts| == n &&
            forall i :: 0 <= i < n ==>
              |parts[i]| >= 2 && parts[i][0] == '$' && Text.ParseNat(parts[i][1..]) == i + 1
  {
    if n > 0 {
      var parts := seq(n, i requires 0 <= i < n => "$" + Text.NatToString(i + 1));
      forall q | q in parts ensures ',' !in q {
        var i :| 0 <= i < n && parts[i] == q;
        assert q[1..] == Text.NatToString(i + 1);
        assert forall c :: c in q[1..] ==> Text.IsDigit(c);
      }
      Text.SplitJoin(parts, ',');
      forall i | 0 <= i < n
        ensures Text.ParseNat(parts[i][1..]) == i + 1
      {
        assert parts[i][1..] == Text.NatToString(i + 1);
        Text.ParseNatToString(i + 1);
      }
    }
  }

  /** What the database answers to one query: result rows, or a raised error. */
  datatype Reply = Rows(rows: seq<Row>) | Raised(message: string)

  /** The database, as an opaque function of query text and parameter values. */
  type Database = (string, seq<Value>) -> Reply

  /** `callDatabaseFunction`: the first result row (absent if none), or the database error rethrown. */
  function CallDatabaseFunction(db: Database, c: Call): (r: Result<Option<Row>, Error>)
    ensures r.Failure? <==> db(QueryText(c), c.params).Raised?
    ensures r.Failure? ==> r.error == DatabaseError(db(QueryText(c), c.params).message)
    ensures r.Success? ==>
            var rows := db(QueryText(c), c.params).rows;
            r.value == if rows == [] then None else Some(rows[0])
  {
    match db(QueryText(c), c.params)
    case Raised(m) => Failure(DatabaseError(m))
    case Rows(rows) => Success(if rows == [] then None else Some(rows[0]))
  }

  /**
   * `callDatabaseFunction` as written: `sql.raw` takes the query text only, so the
   * parameter values passed beside it never reach the database, and the text's
   * placeholders go unbound.
   */
  function CallDatabaseFunctionAsWritten(db: Database, c: Call): (r: Result<Option<Row>, Error>)
    ensures r.Failure? <==> db(QueryText(c), []).Raised?
  {
    match db(QueryText(c), [])
    case Raised(m) => Failure(DatabaseError(m))
    case Rows(rows) => Success(if rows == [] then None else Some(rows[0]))
  }

  /** A database that, like PostgreSQL, raises when the query text names a parameter beyond the values supplied. */
  ghost predicate RejectsUnboundParameters(db: Database) {
    forall q: string, vs: seq<Value>, i: int :: Text.OccursAt(q, FirstUnbound(vs), i) ==> db(q, vs).Raised?
  }

  /** The placeholder of the first parameter the values `vs` leave unbound. */
  function FirstUnbound(vs: seq<Value>): string {
    "$" + Text.NatToString(|vs| + 1)
  }

  lemma {:induction false} PlaceholdersStartWithFirst(n: nat)
    requires n > 0
    ensures |Placeholders(n)| >= 2 && Placeholders(n)[..2] == "$1"
  {
    var parts := seq(n, i requires 0 <= i < n => "$" + Text.NatToString(i + 1));
    assert Text.NatToString(1) == "1";
    assert parts[0] == "$1";
    if n > 1 {
      assert Placeholders(n) == parts[0] + "," + Text.Join(parts[1..], ",");
    }
  }

  /**
   * As written, every call with a parameter fails on such a database: the text
   * names `$1` while no value is bound. All of the dispatcher's calls carry one.
   */
  lemma {:induction false} AsWrittenCallsFail(db: Database, c: Call)
    requires RejectsUnboundParameters(db) && |c.params| > 0
    ensures CallDatabaseFunctionAsWritten(db, c).Failure?
  {
    var pre := "SELECT * FROM " + c.fn + "(";
    var q := QueryText(c);
    PlaceholdersStartWithFirst(|c.params|);
    assert q == pre + Placeholders(|c.params|) + ")";
    assert q[|pre|..|pre| + 2] == Placeholders(|c.params|)[..2];
    var none: seq<Value> := [];
    assert FirstUnbound(none) == "$1";
    assert Text.OccursAt(q, FirstUnbound(none), |pre|);
  }

  /**
   * With the values bound, every placeholder the text names refers to a supplied
   * value: the parts are `$1` … `$n` for exactly n values.
   */
  lemma {:induction false} EveryPlaceholderBound(c: Call)
    requires |c.params| > 0
    ensures var parts := Text.Split(Placeholders(|c.params|), ',');
            |parts| == |c.params| &&
            forall i :: 0 <= i < |parts| ==> |parts[i]| >= 2 && 1 <= Text.ParseNat(parts[i][1..]) <= |c.params|
  {
    PlaceholdersNumbered(|c.params|);
  }

  predicate Fails(db: Database, c: Call) {
    CallDatabaseFunction(db, c).Failure?
  }

  /** The calls actually issued, and the error that ended the dispatch, if any. */
  datatype Run = Run(issued: seq<Call>, error: Option<Error>)

  /**
   * Awaiting the calls in order: a failing call stops the sequence and its error is
   * rethrown unchanged; the calls after it are never issued.
   */
  function Execute(db: Database, calls: seq<Call>): (r: Run)
    ensures |r.issued| <= |calls| && r.issued == calls[..|r.issued|]
    ensures forall i :: 0 <= i < |r.issued| - 1 ==> !Fails(db, r.issued[i])
    ensures r.error.None? <==> forall c :: c in calls ==> !Fails(db, c)
    ensures r.error.None? ==> r.issued == calls
    ensures r.error.Some? ==>
            |r.issued| > 0 &&
            CallDatabaseFunction(db, r.issued[|r.issued| - 1]) == Failure(r.error.value)
    decreases |calls|
  {
    if calls == [] then Run([], None)
    else
      match CallDatabaseFunction(db, calls[0])
      case Failure(e) =>
        assert calls[0] in calls;
        Run([calls[0]], Some(e))
      case Success(_) =>
        var rest := Execute(db, calls[1..]);
        Run([calls[0]] + rest.issued, rest.error)
  }

  /**
   * `processWebhook`: the planned calls, issued in order until one fails. A
   * TypeError of the switch is rethrown before any call is issued; otherwise
   * the issued calls are a prefix of `Dispatch`'s and the webhook succeeds exactly
   * when every planned call succeeds.
   */
  function ProcessWebhook(db: Database, p: Payload): (r: Run)
    ensures Dispatch(p).Failure? ==> r == Run([], Some(Dispatch(p).error))
    ensures Dispatch(p).Success? ==>
            var calls := Dispatch(p).value;
            |r.issued| <= |calls| && r.issued == calls[..|r.issued|] &&
            (forall i :: 0 <= i < |r.issued| - 1 ==> !Fails(db, r.issued[i])) &&
            (r.error.None? <==> forall c :: c in calls ==> !Fails(db, c)) &&
            (r.error.None? ==> r.issued == calls) &&
            (r.error.Some? ==>
               |r.issued| > 0 && CallDatabaseFunction(db, r.issued[|r.issued| - 1]) == Failure(r.error.value))
  {
    match Dispatch(p)
    case Failure(e) => Run([], Some(e))
    case Success(calls) => Execute(db, calls)
  }

  /**
   * For a credit naming both an invoice and an estimate, a failing invoice
   * recompute aborts the dispatch: the estimate recompute is never issued and the
   * invoice call's error is the one rethrown.
   */
  lemma FailureAbortsDispatch(db: Database, p: Payload)
    requires p.table == "customer_credits" && IsWriteOp(p.op)
    requires Truthy(ResolveKey(p, "invoiceId")) && Truthy(ResolveKey(p, "estimateId"))
    requires Fails(db, Call(UpdateInvoiceFinanceMetrics, [ResolveKey(p, "invoiceId")]))
    ensures var invoiceCall := Call(UpdateInvoiceFinanceMetrics, [ResolveKey(p, "invoiceId")]);
            ProcessWebhook(db, p) == Run([invoiceCall], Some(CallDatabaseFunction(db, invoiceCall).error))
  {
    CreditRouting(p);
    var calls := Dispatch(p).value;
    assert calls[1..][1..] == [];
  }

  /**
   * `convertEstimateToInvoice`: the `invoice_id` of the first result row. A database
   * error is rethrown; no result row makes reading `invoice_id` a TypeError.
   */
  function ConvertEstimateToInvoice(db: Database, estimateId: string): (r: Result<Value, Error>)
    ensures var reply := db(QueryText(Call(ConvertEstimateToInvoiceDb, [Str(estimateId)])), [Str(estimateId)]);
            && (reply.Raised? ==> r == Failure(DatabaseError(reply.message)))
            && (reply.Rows? && reply.rows == [] ==> r.Failure? && r.error.TypeError?)
            && (reply.Rows? && reply.rows != [] ==> r == Success(Get(reply.rows[0], "invoice_id")))
  {
    match CallDatabaseFunction(db, Call(ConvertEstimateToInvoiceDb, [Str(estimateId)]))
    case Failure(e) => Failure(e)
    case Success(None) => Failure(TypeError("Cannot read properties of undefined (reading 'invoice_id')"))
    case Success(Some(row)) => Success(Get(row, "invoice_id"))
  }

  /** `approveCustomerPayment`: fails exactly when the database function raises, with its error. */
  function ApproveCustomerPayment(db: Database, paymentId: string): (r: Option<Error>)
    ensures var reply := db(QueryText(Call(ApproveCustomerPaymentDb, [Str(paymentId)])), [Str(paymentId)]);
            (r.Some? <==> reply.Raised?) && (r.Some? ==> r.value == DatabaseError(reply.message))
  {
    match CallDatabaseFunction(db, Call(ApproveCustomerPaymentDb, [Str(paymentId)]))
    case Failure(e) => Some(e)
    case Success(_) => None
  }
}

/**
 * The client's formatting helpers: the status-to-colour classifier and the guards of
 * the currency, date and percentage formatters. The formatting libraries themselves
 * (`Intl.NumberFormat`, date-fns) are passed in as functions, since only the guards
 * in front of them are this module's own logic.
 */
module Utils {
  import opened Wrappers
  import Text

  const GreenClass := "bg-green-100 text-green-800 dark:bg-green-900 dark:text-green-300"
  const AmberClass := "bg-amber-100 text-amber-800 dark:bg-amber-900 dark:text-amber-300"
  const RedClass := "bg-red-100 text-red-800 dark:bg-red-900 dark:text-red-300"
  const BlueClass := "bg-blue-100 text-blue-800 dark:bg-blue-900 dark:text-blue-300"
  const GrayClass := "bg-gray-100 text-gray-800 dark:bg-gray-700 dark:text-gray-300"

  const GreenStatuses: set<string> := {"paid", "approved", "active", "completed", "accepted"}
  const AmberStatuses: set<string> := {"pending", "draft", "sent"}
  const RedStatuses: set<string> := {"overdue", "rejected", "cancelled", "failed"}
  const BlueStatuses: set<string> := {"partial", "inprogress", "in-progress"}

  /** `getStatusColor`: the badge classes for a status, chosen by its lower-cased text. */
  function GetStatusColor(status: string): (r: string)
    ensures r in {GreenClass, AmberClass, RedClass, BlueClass, GrayClass}
    ensures r == GrayClass <==> Text.ToLower(status) !in GreenStatuses + AmberStatuses + RedStatuses + BlueStatuses
  {
    var s := Text.ToLower(status);
    if s in GreenStatuses then GreenClass
    else if s in AmberStatuses then AmberClass
    else if s in RedStatuses then RedClass
    else if s in BlueStatuses then BlueClass
    else GrayClass
  }

  lemma {:induction false} ToLowerIdempotent(s: string)
    ensures Text.ToLower(Text.ToLower(s)) == Text.ToLower(s)
  {
    var once := Text.ToLower(s);
    assert forall i :: 0 <= i < |s| ==> Text.LowerChar(once[i]) == once[i];
  }

  lemma {:induction false} ToLowerAfterToUpper(s: string)
    ensures Text.ToLower(Text.ToUpper(s)) == Text.ToLower(s)
  {
    var up := Text.ToUpper(s);
    assert forall i :: 0 <= i < |s| ==> Text.LowerChar(up[i]) == Text.LowerChar(s[i]);
  }

  /** The colour depends only on the lower-cased status: case makes no difference. */
  lemma {:induction false} StatusColorIgnoresCase(status: string)
    ensures GetStatusColor(status) == GetStatusColor(Text.ToLower(status))
    ensures GetStatusColor(status) == GetStatusColor(Text.ToUpper(status))
  {
    ToLowerIdempotent(status);
    ToLowerAfterToUpper(status);
  }

  /** The five classes are distinct, so each status falls in exactly one colour group. */
  lemma StatusGroups(status: string)
    ensures GetStatusColor(status) == GreenClass <==> Text.ToLower(status) in GreenStatuses
    ensures GetStatusColor(status) == AmberClass <==> Text.ToLower(status) in AmberStatuses
    ensures GetStatusColor(status) == RedClass <==> Text.ToLower(status) in RedStatuses
    ensures GetStatusColor(status) == BlueClass <==> Text.ToLower(status) in BlueStatuses
    ensures GetStatusColor(status) == GrayClass <==>
            Text.ToLower(status) !in GreenStatuses + AmberStatuses + RedStatuses + BlueStatuses
  {
  }

  /** For example, "PAID" and "Paid" are green, "In-Progress" is blue and "unknown" gray. */
  lemma StatusColorExamples()
    ensures GetStatusColor("PAID") == GreenClass && GetStatusColor("Paid") == GreenClass
    ensures GetStatusColor("In-Progress") == BlueClass
    ensures GetStatusColor("Sent") == AmberClass && GetStatusColor("FAILED") == RedClass
    ensures GetStatusColor("unknown") == GrayClass
  {
    assert Text.ToLower("PAID") == "paid" && Text.ToLower("Paid") == "paid";
    assert Text.ToLower("In-Progress") == "in-progress";
    assert Text.ToLower("Sent") == "sent";
    assert Text.ToLower("FAILED") == "failed";
    assert Text.ToLower("unknown") == "unknown";
    assert "unknown" !in GreenStatuses + AmberStatuses + RedStatuses + BlueStatuses;
  }

  /**
   * `value.toFixed(1)` for a value already rounded to tenths (`tenths` = 10 × value):
   * the integer part, a point and one decimal, with a minus sign when negative.
   */
  function FixedOneDecimal(tenths: int): (r: string)
    ensures |r| >= 3 && r[|r| - 2] == '.' && Text.IsDigit(r[|r| - 1])
    ensures tenths < 0 <==> r[0] == '-'
    ensures tenths >= 0 ==> Text.IsDigit(r[0])
  {
    var magnitude := if tenths < 0 then -tenths else tenths;
    var digits := Text.NatToString(magnitude / 10) + "." + [Text.DigitChar(magnitude % 10)];
    assert digits[0] in Text.NatToString(magnitude / 10);
    if tenths < 0 then "-" + digits else digits
  }

  /**
   * `formatPercentChange(value, includeSign)`: "0%" when the value is null or
   * undefined; otherwise the value with one decimal and a percent sign, preceded by
   * "+" exactly when the sign is requested and the value is positive.
   */
  function FormatPercentChange(tenths: Option<int>, includeSign: bool): (r: string)
    ensures tenths.None? ==> r == "0%"
    ensures |r| >= 2 && r[|r| - 1] == '%'
    ensures tenths.Some? ==> (r[0] == '+' <==> includeSign && tenths.value > 0)
    ensures tenths.Some? ==> (r[0] == '-' <==> tenths.value < 0)
  {
    match tenths
    case None => "0%"
    case Some(v) =>
      var sign := if includeSign && v > 0 then "+" else "";
      var fixed := FixedOneDecimal(v);
      sign + fixed + "%"
  }

  /** Requesting the sign adds exactly one "+" in front of a positive value and changes nothing else. */
  lemma SignOnlyPrefixesPositives(tenths: int)
    ensures tenths > 0 ==>
            FormatPercentChange(Some(tenths), true) == "+" + FormatPercentChange(Some(tenths), false)
    ensures tenths <= 0 ==>
            FormatPercentChange(Some(tenths), true) == FormatPercentChange(Some(tenths), false)
  {
    var fixed := FixedOneDecimal(tenths);
    assert FormatPercentChange(Some(tenths), false) == "" + fixed + "%";
    assert "" + fixed + "%" == fixed + "%";
    if tenths > 0 {
      assert FormatPercentChange(Some(tenths), true) == "+" + fixed + "%";
      assert "+" + fixed + "%" == "+" + (fixed + "%");
    }
  }

  /** An amount as the callers pass it: a decimal string from the database or a number (in cents). */
  datatype Amount = AmountText(text: string) | AmountNumber(cents: int)

  /**
   * `formatCurrency`: "$0.00" for a null or undefined amount, without consulting the
   * number formatter; otherwise the formatter applied to the (parsed) amount.
   */
  function FormatCurrency(amount: Option<Amount>, parse: string -> int, format: int -> string): (r: string)
    ensures amount.None? ==> r == "$0.00"
    ensures amount.Some? && amount.value.AmountNumber? ==> r == format(amount.value.cents)
    ensures amount.Some? && amount.value.AmountText? ==> r == format(parse(amount.value.text))
  {
    match amount
    case None => "$0.00"
    case Some(AmountText(s)) => format(parse(s))
    case Some(AmountNumber(n)) => format(n)
  }

  /** A date as the callers pass it: an ISO string or a Date object. */
  datatype DateArg<D> = DateText(text: string) | DateValue(date: D)

  /**
   * `formatDate`: "N/A" for a falsy argument (null, undefined or ""), before any
   * parsing; "Invalid date" when the parsed date is invalid; otherwise the formatted
   * date.
   */
  function FormatDate<D>(date: Option<DateArg<D>>, parse: string -> D, isValid: D -> bool, format: D -> string)
    : (r: string)
    ensures date.None? || date == Some(DateText("")) ==> r == "N/A"
    ensures date.Some? && date != Some(DateText("")) ==>
            var d := if date.value.DateText? then parse(date.value.text) else date.value.date;
            r == (if isValid(d) then format(d) else "Invalid date")
  {
    match date
    case None => "N/A"
    case Some(DateText(s)) =>
      if s == "" then "N/A"
      else
        var d := parse(s);
        if isValid(d) then format(d) else "Invalid date"
    case Some(DateValue(d)) => if isValid(d) then format(d) else "Invalid date"
  }
}

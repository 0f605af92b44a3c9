/**
 * The JavaScript values that rows and webhook payloads carry, with the few
 * operators the source applies to them: truthiness, `a || b`, `r?.key` and `!==`.
 * A payload arrives as JSON, so its values are null, booleans, numbers, strings
 * and objects; `undefined` is what reading a missing key gives. Numbers are
 * integers here: money is counted in cents and quantities are whole.
 */
module JsValues {
  import opened Wrappers

  datatype Value = Undefined | Null | Bool(b: bool) | Num(n: int) | Str(s: string) | Obj

  /** A row object: column name to value; a missing key reads as `undefined`. */
  type Row = map<string, Value>

  /** JavaScript truthiness: `undefined`, `null`, `false`, `0` and `""` are falsy. */
  predicate Truthy(v: Value) {
    match v
    case Undefined => false
    case Null => false
    case Bool(b) => b
    case Num(n) => n != 0
    case Str(s) => s != ""
    case Obj => true
  }

  /** `a || b`: the first operand when it is truthy, otherwise the second. */
  function Or(a: Value, b: Value): (r: Value)
    ensures Truthy(r) <==> Truthy(a) || Truthy(b)
    ensures Truthy(a) ==> r == a
  {
    if Truthy(a) then a else b
  }

  /** `row.key` on an object. */
  function Get(row: Row, key: string): Value {
    if key in row then row[key] else Undefined
  }

  /** `row?.key`: `undefined` when the row itself is absent (undefined or null). */
  function Field(row: Option<Row>, key: string): Value {
    match row
    case None => Undefined
    case Some(r) => Get(r, key)
  }

  /**
   * `a === b`. Two objects decoded from JSON are distinct references, so an
   * object is never strictly equal to another value read from a payload.
   */
  predicate StrictEquals(a: Value, b: Value) {
    a == b && !a.Obj?
  }
}

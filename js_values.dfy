/**
 * The JavaScript values that reach the routes: fields of a parsed JSON
 * request body, and the fields of a stored document.
 */
module JsValues {
  import opened Wrappers

  /**
   * A JavaScript value as the handlers see it. JSON numbers are finite, so a
   * number is a `real`. `Obj` is any JSON object or array; `text` is what
   * `String(value)` gives for it (for an array, its elements joined by commas),
   * which is the string a regular expression test and `parseFloat` work on.
   * `text` is `None` when that conversion throws a `TypeError`: a parsed JSON
   * object with an own `toString` member that is not a function (its inherited
   * `valueOf` returns the object itself), or an array holding such an object.
   * `ServerTimestamp` is the store's server-assigned time: an opaque value.
   */
  datatype Value =
    | Undefined
    | Null
    | Bool(b: bool)
    | Num(x: real)
    | Str(s: string)
    | Obj(text: Option<string>)
    | ServerTimestamp

  /** JavaScript truthiness: what `!v` negates and what `v || w` tests. */
  predicate Truthy(v: Value)
  {
    match v
    case Undefined => false
    case Null => false
    case Bool(b) => b
    case Num(x) => x != 0.0
    case Str(s) => s != ""
    case Obj(_) => true
    case ServerTimestamp => true
  }

  /** `v === null || v === undefined` */
  predicate IsNullish(v: Value)
  {
    v.Undefined? || v.Null?
  }

  /** `v || fallback` */
  function Or(v: Value, fallback: Value): (r: Value)
    ensures Truthy(v) ==> r == v
    ensures !Truthy(v) ==> r == fallback
  {
    if Truthy(v) then v else fallback
  }
}

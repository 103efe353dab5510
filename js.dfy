/** JavaScript values as they reach the hook's props and the App's reducer state,
    with the truthiness rule the source's `!x`, `x && …` and `x || …` rely on. */
module Js {

  /** The values that occur in the App state and in the hook's props (`any` in the source). */
  datatype Value = Undefined | Null | Bool(b: bool) | Str(s: string)

  /** JavaScript truthiness: `false`, `null`, `undefined` and `''` are falsy. */
  predicate Truthy(v: Value) {
    match v
    case Undefined => false
    case Null => false
    case Bool(b) => b
    case Str(s) => s != ""
  }

  /** JavaScript `a || b`. */
  function Or(a: Value, b: Value): Value {
    if Truthy(a) then a else b
  }

  /** A value that may be absent (`null` for an object reference, a missing record field). */
  datatype Option<T> = None | Some(value: T)
}

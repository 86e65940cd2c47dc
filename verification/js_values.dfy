/**
 * The dynamically typed values that travel in a worker message, together with
 * JavaScript's truthiness rule, which decides how the parser reads a message.
 */
module JsValues {

  /**
   * A JavaScript value as far as truthiness is concerned. Numbers are reals
   * (NaN is not represented); objects are identified by an opaque handle.
   */
  datatype JsValue =
    | Undefined
    | Null
    | Bool(b: bool)
    | Num(n: real)
    | Str(s: string)
    | Obj(handle: nat)

  /** JavaScript's ToBoolean: `undefined`, `null`, `false`, `0` and `""` are falsy, everything else is truthy. */
  predicate Truthy(v: JsValue) {
    match v
    case Undefined => false
    case Null => false
    case Bool(b) => b
    case Num(n) => n != 0.0
    case Str(s) => s != ""
    case Obj(_) => true
  }
}

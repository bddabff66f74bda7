/** JavaScript values as the bootstrap sees them: config entries, parsed flag values. */
module Js {

  datatype Option<+T> = None | Some(value: T)

  /** The shapes a config entry or a flag value can take (NaN and objects are not modelled). */
  datatype JsValue = Undefined | Null | Bool(b: bool) | Num(n: int) | Str(s: string)

  /** JavaScript truthiness, the meaning of `!!v` and of `if (v)`. */
  predicate Truthy(v: JsValue) {
    match v
    case Undefined => false
    case Null => false
    case Bool(b) => b
    case Num(n) => n != 0
    case Str(s) => s != ""
  }

  /** Truthiness of a value that is either absent or a string (the empty string is falsy). */
  predicate TruthyString(o: Option<string>) {
    o.Some? && o.value != ""
  }
}

/** JavaScript values as the generator sees them, and JavaScript's truthiness. */
module Js {

  datatype Option<T> = None | Some(value: T)

  /** A JavaScript value. Numbers are modelled as integers; an object or array is an opaque reference. */
  datatype JsValue =
    | Undefined
    | Null
    | Bool(b: bool)
    | Num(n: int)
    | Str(s: string)
    | Obj(id: nat)

  /** JavaScript's truthiness: `undefined`, `null`, `false`, `0` and `''` are falsy, everything else truthy. */
  predicate Truthy(v: JsValue) {
    match v
    case Undefined => false
    case Null => false
    case Bool(b) => b
    case Num(n) => n != 0
    case Str(s) => s != ""
    case Obj(_) => true
  }

  /** `a || b` */
  function Or(a: JsValue, b: JsValue): JsValue {
    if Truthy(a) then a else b
  }

  /** `a || b` on values known to be strings. */
  function OrString(a: string, b: string): string {
    if a != "" then a else b
  }
}

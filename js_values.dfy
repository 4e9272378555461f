/** JavaScript values, as far as the bot inspects them. */
module JsValues {

  /** A JavaScript value. An object is given by its own properties (arrays,
      functions and class instances are objects too); a number is a real
      number or NaN. */
  datatype JsValue =
    | Undefined
    | Null
    | Bool(b: bool)
    | Num(n: real)
    | NaN
    | Str(s: string)
    | Obj(props: map<string, JsValue>)

  datatype Option<T> = None | Some(value: T)

  /** ToBoolean: what `if (v)` and `!v` test. */
  predicate Truthy(v: JsValue) {
    match v
    case Undefined => false
    case Null => false
    case Bool(b) => b
    case Num(n) => n != 0.0
    case NaN => false
    case Str(s) => s != ""
    case Obj(_) => true
  }

  /** `null` and `undefined`: reading a property of either throws a TypeError. */
  predicate Nullish(v: JsValue) {
    v == Undefined || v == Null
  }

  /** `o[key]` on a plain object: the own property, or undefined. */
  function Get(props: map<string, JsValue>, key: string): JsValue {
    if key in props then props[key] else Undefined
  }

  /** A JavaScript object that the program updates in place, shared by
      everyone who holds a reference to it. */
  class JsObject {
    var props: map<string, JsValue>

    constructor (props: map<string, JsValue>)
      ensures this.props == props
    {
      this.props := props;
    }
  }
}

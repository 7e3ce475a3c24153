/**
 * The few JavaScript values and operators that the gateway details view
 * inspects when it decides what to display: `typeof`, truthiness and
 * the `null`/`undefined` distinction.
 */
module JsValues {

  /** A JavaScript value, restricted to the kinds the view can receive. */
  datatype JsValue = Undefined | Null | Bool(b: bool) | Num(n: real) | Str(s: string)

  /** The `typeof` operator. */
  function TypeOf(v: JsValue): (t: string)
    ensures t != ""
    ensures t == "undefined" <==> v.Undefined?
  {
    match v
    case Undefined => "undefined"
    case Null => "object"
    case Bool(_) => "boolean"
    case Num(_) => "number"
    case Str(_) => "string"
  }

  /** The truthiness of a value used as a condition (NaN is not modelled). */
  predicate Truthy(v: JsValue)
  {
    match v
    case Undefined => false
    case Null => false
    case Bool(b) => b
    case Num(n) => n != 0.0
    case Str(s) => s != ""
  }
}

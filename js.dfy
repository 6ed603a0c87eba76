/**
 * JavaScript values, as far as the wrapper looks into them: the arguments of
 * inbound hub invocations, the payload of the hub's close notification and
 * the untyped configuration fields.
 */
module Js {
  /** Numbers are modelled as integers (no NaN, no fractions). */
  datatype Value =
    | Undefined
    | Null
    | Bool(b: bool)
    | Num(n: int)
    | Str(s: string)
    | Arr(items: seq<Value>)
    | Obj(props: map<string, Value>)

  /** JavaScript truthiness, the test behind `if (x)`, `!x` and `x || y`. */
  predicate Truthy(v: Value) {
    match v
    case Undefined => false
    case Null => false
    case Bool(b) => b
    case Num(n) => n != 0
    case Str(s) => s != ""
    case Arr(_) => true
    case Obj(_) => true
  }

  /**
   * `v.hasOwnProperty(key)` for a named key. Only plain objects carry named
   * own properties here; arrays own only their indices and `length`.
   */
  predicate HasOwnProperty(v: Value, key: string) {
    v.Obj? && key in v.props
  }

  /** `a || b`: the left operand when it is truthy, otherwise the right one. */
  function Or(a: Value, b: Value): Value {
    if Truthy(a) then a else b
  }
}

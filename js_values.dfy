/**
 * The part of JavaScript's value model that the three components rely on:
 * request bodies, provider payloads and the configuration stub's results are
 * values of this type, and `if (x)`, `x || y` and `x.key` are the operations
 * applied to them.
 */
module JsValues {

  /** A JavaScript value. `Callable` stands for any function value (a callback or a no-op). */
  datatype JsValue =
    | Undefined
    | Null
    | Bool(b: bool)
    | Num(n: real)
    | Str(s: string)
    | Arr(items: seq<JsValue>)
    | Obj(fields: map<string, JsValue>)
    | Callable

  /** JavaScript truthiness; NaN is not a value of this model. */
  predicate Truthy(v: JsValue) {
    match v
    case Undefined => false
    case Null => false
    case Bool(b) => b
    case Num(n) => n != 0.0
    case Str(s) => s != ""
    case _ => true
  }

  /** `a || b`: the left operand when it is truthy, otherwise the right one. */
  function Or(a: JsValue, b: JsValue): JsValue {
    if Truthy(a) then a else b
  }

  /** Property access `v.key` (and `v?.key`): an own field of an object, otherwise `undefined`. */
  function Get(v: JsValue, key: string): JsValue {
    if v.Obj? && key in v.fields then v.fields[key] else Undefined
  }

  /** A chain of property accesses `v.k0.k1…`, with `?.` at every step. */
  function At(v: JsValue, path: seq<string>): JsValue
    decreases |path|
  {
    if path == [] then v else At(Get(v, path[0]), path[1..])
  }

  /** The literal `{ key: value }`. */
  function Obj1(key: string, value: JsValue): JsValue {
    Obj(map[key := value])
  }

  /** The literal `{ k1: v1, k2: v2 }`. */
  function Obj2(k1: string, v1: JsValue, k2: string, v2: JsValue): JsValue {
    Obj(map[k1 := v1, k2 := v2])
  }

  /** The literal `{}`. */
  const EmptyObj: JsValue := Obj(map[])
}

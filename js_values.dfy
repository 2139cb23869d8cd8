/** The JavaScript values the core inspects: module exports, `returns` definitions,
    the generated `api` tree and parsed JSON. Only what the core observes is kept:
    truthiness, `typeof`, own properties, `instanceof ZodType` and the result of calling
    a function with no arguments. */
module JsValues {

  datatype JsValue =
    | Undefined
    | Null
    | Bool(b: bool)
    | Num(n: int)
    | Str(s: string)
    | Arr(items: seq<JsValue>)
      /** A non-function object; `zodType` says whether it is an instance of `ZodType`. */
    | Obj(props: map<string, JsValue>, zodType: bool)
      /** A function object with its own properties and what a call with no arguments does. */
    | Fun(props: map<string, JsValue>, call: CallResult)

  datatype CallResult = Returns(value: JsValue) | Throws

  /** JavaScript truthiness (`!!v`). NaN is not modelled: numbers are integers. */
  predicate Truthy(v: JsValue)
  {
    match v
    case Undefined => false
    case Null => false
    case Bool(b) => b
    case Num(n) => n != 0
    case Str(s) => s != ""
    case _ => true
  }

  /** `typeof v`. */
  function TypeOf(v: JsValue): string
  {
    match v
    case Undefined => "undefined"
    case Null => "object"
    case Bool(_) => "boolean"
    case Num(_) => "number"
    case Str(_) => "string"
    case Arr(_) => "object"
    case Obj(_, _) => "object"
    case Fun(_, _) => "function"
  }

  /** `v[key]` for an own property; anything else (inherited members, array indices,
      members of primitives) reads as `undefined`. */
  function GetProp(v: JsValue, key: string): JsValue
  {
    match v
    case Obj(props, _) => if key in props then props[key] else Undefined
    case Fun(props, _) => if key in props then props[key] else Undefined
    case _ => Undefined
  }

  /** `s.startsWith(prefix)`. */
  predicate StartsWith(s: string, prefix: string)
  {
    prefix <= s
  }

  /** `s.endsWith(suffix)`. */
  predicate EndsWith(s: string, suffix: string)
  {
    |suffix| <= |s| && s[|s| - |suffix|..] == suffix
  }

  /** `Object.values(v).every(p)` for an object or array. */
  predicate EveryValue(v: JsValue, p: JsValue -> bool)
  {
    match v
    case Obj(props, _) => forall k :: k in props ==> p(props[k])
    case Arr(items) => forall i :: 0 <= i < |items| ==> p(items[i])
    case _ => true
  }

  /** `key in v` for an own property of an object or function. */
  predicate HasProp(v: JsValue, key: string)
  {
    (v.Obj? && key in v.props) || (v.Fun? && key in v.props)
  }
}

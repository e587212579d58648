/**
 * The slice of JavaScript's value model that the request handler and the
 * validator look at: a request body parsed from JSON, plus `undefined` for a
 * property that is absent. Numbers are mathematical reals (NaN and the
 * infinities are not represented).
 */
module Js {

  datatype Option<+T> = None | Some(value: T)

  datatype JsValue =
    | Undefined
    | Null
    | Bool(b: bool)
    | Num(n: real)
    | Str(s: string)
    | Arr(items: seq<JsValue>)
    | Obj(fields: map<string, JsValue>)

  /** The answer of the `typeof` operator. */
  datatype TypeTag = UndefinedTag | ObjectTag | BooleanTag | NumberTag | StringTag

  function TypeOf(v: JsValue): TypeTag
  {
    match v
    case Undefined => UndefinedTag
    case Null => ObjectTag
    case Bool(_) => BooleanTag
    case Num(_) => NumberTag
    case Str(_) => StringTag
    case Arr(_) => ObjectTag
    case Obj(_) => ObjectTag
  }

  /** JavaScript truthiness: `!v` holds exactly when this is false. */
  predicate Truthy(v: JsValue)
  {
    match v
    case Undefined => false
    case Null => false
    case Bool(b) => b
    case Num(n) => n != 0.0
    case Str(s) => s != ""
    case Arr(_) => true
    case Obj(_) => true
  }

  /** Property read `v.key`; an absent property (or one read off a non-object) is `undefined`. */
  function Get(v: JsValue, key: string): JsValue
  {
    if v.Obj? && key in v.fields then v.fields[key] else Undefined
  }
}

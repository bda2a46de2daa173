/**
 * The JavaScript values that flow through the client: decoded response bodies,
 * query and form fields, and the few operators the client applies to them
 * (truthiness, property read, `delete`, conversion to string).
 */
module Js {
  import Text

  /**
   * A JavaScript value. `Num` keeps the number's canonical text (what `String(x)` gives);
   * the client never computes with numbers, so their value stays opaque.
   */
  datatype JsValue =
    | Undefined
    | Null
    | Bool(b: bool)
    | Num(text: string)
    | Str(s: string)
    | Arr(items: seq<JsValue>)
    | Obj(props: map<string, JsValue>)

  predicate Nullish(v: JsValue) {
    v.Undefined? || v.Null?
  }

  /** JavaScript truthiness; zero renders as "0" and NaN as "NaN". */
  predicate Truthy(v: JsValue) {
    match v
    case Undefined => false
    case Null => false
    case Bool(b) => b
    case Num(text) => text != "0" && text != "NaN"
    case Str(s) => s != ""
    case Arr(_) => true
    case Obj(_) => true
  }

  /** The property read `v.key`; reading a property of null or undefined throws, so it is excluded. */
  function Get(v: JsValue, key: string): JsValue
    requires !Nullish(v)
  {
    if v.Obj? && key in v.props then v.props[key] else Undefined
  }

  /** `delete v.key` on a value that is neither null nor undefined (a no-op on primitives). */
  function Delete(v: JsValue, key: string): JsValue
    requires !Nullish(v)
  {
    if v.Obj? then Obj(v.props - {key}) else v
  }

  /** String conversion, as `'...' + v` performs it. */
  function ToJsString(v: JsValue): string
  {
    match v
    case Undefined => "undefined"
    case Null => "null"
    case Bool(b) => if b then "true" else "false"
    case Num(text) => text
    case Str(s) => s
    case Arr(items) =>
      Text.Join(seq(|items|, i requires 0 <= i < |items| =>
                      if Nullish(items[i]) then "" else ToJsString(items[i])), ",")
    case Obj(_) => "[object Object]"
  }
}

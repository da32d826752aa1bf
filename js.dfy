/**
 * The JavaScript values the two selectize pickers read and build: their
 * truthiness, the `||` operator, property access and string conversion.
 */
module Js {
  import Php

  datatype JsVal =
    | Undefined
    | Null
    | Bool(b: bool)
    | Num(n: int)
    | Str(s: string)
    | Obj(fields: map<string, JsVal>)
    | Arr(items: seq<JsVal>)
    | RegExp(source: string)

  /** JavaScript's conversion to boolean; every object is true. */
  predicate Truthy(v: JsVal)
  {
    match v
    case Undefined => false
    case Null => false
    case Bool(b) => b
    case Num(n) => n != 0
    case Str(s) => s != ""
    case _ => true
  }

  /** `a || b`: the first operand when truthy, else the second. */
  function Or(a: JsVal, b: JsVal): JsVal
  {
    if Truthy(a) then a else b
  }

  /** `typeof v === 'object'` for a non-null value. */
  predicate IsObject(v: JsVal)
  {
    v.Obj? || v.Arr? || v.RegExp?
  }

  /** `v[k]` on a plain object; `undefined` when absent or when `v` is not a
    * plain object. */
  function Prop(v: JsVal, k: string): JsVal
  {
    if v.Obj? && k in v.fields then v.fields[k] else Undefined
  }

  /** `k in v` on a plain object. */
  predicate HasProp(v: JsVal, k: string)
  {
    v.Obj? && k in v.fields
  }

  /** `String(v)`. */
  function ToString(v: JsVal): string
  {
    match v
    case Undefined => "undefined"
    case Null => "null"
    case Bool(b) => if b then "true" else "false"
    case Num(n) => if n < 0 then "-" + Php.NatString(-n) else Php.NatString(n)
    case Str(s) => s
    case Obj(_) => "[object Object]"
    case Arr(items) => ItemsString(items)
    case RegExp(src) => "/" + src + "/"
  }

  /** `String(array)`: the items joined with commas, null and undefined as
    * empty. */
  function ItemsString(items: seq<JsVal>): string
    decreases items
  {
    if items == [] then ""
    else
      var first := if items[0].Undefined? || items[0].Null? then "" else ToString(items[0]);
      if |items| == 1 then first else first + "," + ItemsString(items[1..])
  }

  /** `$.isEmptyObject(v)`: no enumerable property. */
  predicate IsEmptyObject(v: JsVal)
  {
    match v
    case Obj(fs) => fs == map[]
    case Arr(items) => items == []
    case Str(s) => s == ""
    case _ => true
  }
}

/**
 * The JavaScript values the application reads from backend bodies and
 * component state, with the three operators its logic is built from:
 * truthiness (`if (x)`, `!x`, `.filter(Boolean)`), `a || b` and optional
 * property reads `v?.key`.  Numbers are integers: NaN, -0 and fractions are
 * outside the model.  Objects are maps from property names to values, so
 * `{ ...o, k: v }` is the map update `o[k := v]`.
 */
module Js {

  import Text

  datatype JsValue =
    | Undefined
    | Null
    | Bool(b: bool)
    | Num(n: int)
    | Str(s: string)
    | Arr(elems: seq<JsValue>)
    | Obj(fields: map<string, JsValue>)

  /** A plain object: its own enumerable properties. */
  type Object = map<string, JsValue>

  /** The values JavaScript converts to `true` in a condition. */
  predicate Truthy(v: JsValue) {
    match v
    case Undefined => false
    case Null => false
    case Bool(b) => b
    case Num(n) => n != 0
    case Str(s) => s != ""
    case Arr(_) => true
    case Obj(_) => true
  }

  /** `a || b`: the left operand when it is truthy, otherwise the right one. */
  function Or(a: JsValue, b: JsValue): JsValue {
    if Truthy(a) then a else b
  }

  /** `o.key` on a plain object: a missing property reads as `undefined`. */
  function Prop(o: Object, key: string): JsValue {
    if key in o then o[key] else Undefined
  }

  /**
   * `v?.key`: `undefined` on `null` and `undefined`, and on every value that
   * is not an object (keys naming built-in properties such as `length` are
   * not used by the application and are outside the model).
   */
  function OptGet(v: JsValue, key: string): JsValue {
    match v
    case Obj(o) => Prop(o, key)
    case _ => Undefined
  }

  /** The decimal digits of a natural number. */
  function NatToString(n: nat): string
    decreases n
  {
    var d := "0123456789"[n % 10];
    if n < 10 then [d] else NatToString(n / 10) + [d]
  }

  /** An array element as `join` writes it: `null` and `undefined` become "". */
  function ElementText(e: JsValue): string
    decreases e, 1
  {
    if e.Undefined? || e.Null? then "" else ToStr(e)
  }

  /** `String(v)`, as template literals and `URLSearchParams.append` apply it. */
  function ToStr(v: JsValue): string
    decreases v, 0
  {
    match v
    case Undefined => "undefined"
    case Null => "null"
    case Bool(b) => if b then "true" else "false"
    case Num(n) => if n < 0 then "-" + NatToString(-n) else NatToString(n)
    case Str(s) => s
    case Arr(es) => Text.Join(seq(|es|, i requires 0 <= i < |es| => ElementText(es[i])), ",")
    case Obj(_) => "[object Object]"
  }
}

/** The JavaScript values the core receives from untrusted sources: numbers
    that may be non-finite, and parsed JSON documents. */
module JsValues {
  import opened Wrappers

  /** A JavaScript number. The three non-finite doubles (NaN, +Infinity,
      -Infinity) are one case; finite doubles are modelled by exact reals. */
  datatype Num = Finite(v: real) | NonFinite

  /** `Number.isFinite`. */
  predicate IsFinite(n: Num) {
    n.Finite?
  }

  /** A value produced by `JSON.parse`. JSON numbers are always finite; an
      object keeps the last of duplicate keys, hence a map. */
  datatype Json =
    | JNull
    | JBool(b: bool)
    | JNum(n: real)
    | JStr(s: string)
    | JArr(items: seq<Json>)
    | JObj(fields: map<string, Json>)

  /** Property access `v.key` (or `v?.key`); `None` is `undefined`. Only
      objects carry named properties; arrays and primitives yield undefined
      for every key this core reads. */
  function Get(v: Option<Json>, key: string): (r: Option<Json>)
    ensures r.Some? ==> v.Some? && v.value.JObj? && key in v.value.fields
  {
    match v
    case Some(JObj(fields)) => if key in fields then Some(fields[key]) else None
    case _ => None
  }

  /** JavaScript truthiness: `undefined`, `null`, `false`, `0` and `""` are falsy. */
  predicate Truthy(v: Option<Json>) {
    match v
    case None => false
    case Some(j) =>
      match j
      case JNull => false
      case JBool(b) => b
      case JNum(n) => n != 0.0
      case JStr(s) => s != ""
      case JArr(_) => true
      case JObj(_) => true
  }

  /** `typeof v === 'number'`. */
  predicate IsNumber(v: Option<Json>) {
    v.Some? && v.value.JNum?
  }

  /** `typeof v === 'string'`. */
  predicate IsString(v: Option<Json>) {
    v.Some? && v.value.JStr?
  }

  /** `Array.isArray(v)`. */
  predicate IsArray(v: Option<Json>) {
    v.Some? && v.value.JArr?
  }

  /** `String(v)` and template-literal interpolation. The decimal rendering
      of numbers and the rendering of arrays and objects are supplied by the
      caller as `show`. */
  function ToJsString(v: Option<Json>, show: Json -> string): string {
    match v
    case None => "undefined"
    case Some(JNull) => "null"
    case Some(JBool(b)) => if b then "true" else "false"
    case Some(JStr(s)) => s
    case Some(j) => show(j)
  }
}

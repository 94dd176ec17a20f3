/** JSON values as JavaScript sees them after `JSON.parse`, and the duck-typed accessors the source uses on them. */
module Json {
  import opened Wrappers

  /** A parsed JSON value; an object is a map from keys to values. */
  datatype Json =
    | JNull
    | JBool(b: bool)
    | JNum(n: real)
    | JStr(s: string)
    | JArr(items: seq<Json>)
    | JObj(fields: map<string, Json>)

  /** `isRecord(v)`: a non-null object that is not an array. */
  predicate IsRecord(v: Json) {
    v.JObj?
  }

  /** `get(obj, key)`: the property of a record, `undefined` (None) for anything else. */
  function Get(v: Json, key: string): (r: Option<Json>)
    ensures !IsRecord(v) ==> r == None
    ensures IsRecord(v) ==> (r.Some? <==> key in v.fields)
    ensures r.Some? ==> r.value == v.fields[key]
  {
    if v.JObj? && key in v.fields then Some(v.fields[key]) else None
  }

  /** `get` on a value that may itself be `undefined`. */
  function GetIn(v: Option<Json>, key: string): Option<Json> {
    if v.Some? then Get(v.value, key) else None
  }

  /** JavaScript truthiness of a JSON value. */
  predicate Truthy(v: Json) {
    match v
    case JNull => false
    case JBool(b) => b
    case JNum(n) => n != 0.0
    case JStr(s) => s != ""
    case _ => true
  }

  /** Truthiness of a value that may be `undefined`. */
  predicate TruthyOpt(v: Option<Json>) {
    v.Some? && Truthy(v.value)
  }

  /** `null` or `undefined`. */
  predicate Nullish(v: Option<Json>) {
    v.None? || v.value.JNull?
  }

  /** `a ?? b`. */
  function Coalesce(a: Option<Json>, b: Option<Json>): Option<Json> {
    if Nullish(a) then b else a
  }

  /** `a || b`. */
  function Or(a: Option<Json>, b: Option<Json>): Option<Json> {
    if TruthyOpt(a) then a else b
  }

  /** The string held by a value, when it is a string. */
  function StrOf(v: Option<Json>): Option<string> {
    if v.Some? && v.value.JStr? then Some(v.value.s) else None
  }

  /**
   * A reply body read as `text ? JSON.parse(text) : null`, keeping the raw
   * text when parsing throws. `parsed` is what `JSON.parse(text)` gives, and
   * None when it throws.
   */
  function BodyOf(text: string, parsed: Option<Json>): (b: Json)
    ensures text == "" ==> b == JNull
    ensures text != "" && parsed.None? ==> b == JStr(text)
    ensures text != "" && parsed.Some? ==> b == parsed.value
  {
    if text == "" then JNull
    else if parsed.Some? then parsed.value
    else JStr(text)
  }

  /** `v?.[0]`: the first element of an array, the property "0" of an object, and nothing with properties otherwise. */
  function First(v: Option<Json>): (r: Option<Json>)
    ensures v.Some? && v.value.JArr? && v.value.items != [] ==> r == Some(v.value.items[0])
  {
    if v.Some? && v.value.JArr? then (if v.value.items == [] then None else Some(v.value.items[0]))
    else GetIn(v, "0")
  }

  /**
   * `String(v)` as a template literal renders it; `render` is the runtime's
   * rendering of numbers and arrays.
   */
  function JsString(v: Option<Json>, render: Json -> string): string {
    if v.None? then "undefined"
    else match v.value
      case JNull => "null"
      case JBool(b) => if b then "true" else "false"
      case JStr(s) => s
      case JObj(_) => "[object Object]"
      case _ => render(v.value)
  }
}

/**
 * JavaScript values as they come out of `JSON.parse`, with the two
 * operations the application code applies to them: truthiness and
 * property lookup.  A lookup that misses (`undefined`) is `None`.
 */
module JsValue {

  import opened Wrappers

  datatype Json =
    | JNull
    | JBool(b: bool)
    | JNum(n: real)
    | JStr(s: string)
    | JArr(items: seq<Json>)
    | JObj(fields: map<string, Json>)

  /** JavaScript truthiness of a parsed value (NaN and -0 are not representable). */
  predicate Truthy(v: Json) {
    match v
    case JNull => false
    case JBool(b) => b
    case JNum(n) => n != 0.0
    case JStr(s) => s != ""
    case JArr(_) => true
    case JObj(_) => true
  }

  /** `v[name]` for an own field of a parsed object; `undefined` otherwise. */
  function Field(v: Json, name: string): Option<Json> {
    if v.JObj? && name in v.fields then Some(v.fields[name]) else None
  }

  /** `Array.isArray(v[name])`. */
  predicate FieldIsArray(v: Json, name: string) {
    Field(v, name).Some? && Field(v, name).value.JArr?
  }

  /** `x || d` where `x` may be `undefined`. */
  function OrElse(x: Option<Json>, d: Json): (r: Json)
    ensures r == d || (x == Some(r) && Truthy(r))
    ensures x.Some? && Truthy(x.value) ==> r == x.value
  {
    if x.Some? && Truthy(x.value) then x.value else d
  }

}

/**
 * JSON values as the handlers receive them: an invocation event is a
 * Python dict decoded from JSON, and every field is read defensively.
 * Numbers are integers only (floating point is not modelled).
 */
module Json {
  import opened Wrappers

  datatype Json =
    | JNull
    | JBool(b: bool)
    | JNum(n: int)
    | JStr(s: string)
    | JArr(items: seq<Json>)
    | JObj(fields: map<string, Json>)

  /** Python truthiness of a decoded JSON value (`if value:`). */
  predicate Truthy(j: Json)
  {
    match j
    case JNull => false
    case JBool(b) => b
    case JNum(n) => n != 0
    case JStr(s) => s != []
    case JArr(items) => items != []
    case JObj(fields) => fields != map[]
  }

  /** `d.get(key, default)` on a dict. */
  function GetOr(d: map<string, Json>, key: string, default: Json): (r: Json)
    ensures key in d ==> r == d[key]
    ensures key !in d ==> r == default
  {
    if key in d then d[key] else default
  }

  /** `value[key]` where `value` should be a dict: `None` when Python would raise. */
  function Field(j: Json, key: string): (r: Option<Json>)
    ensures r.Some? <==> j.JObj? && key in j.fields
    ensures r.Some? ==> r.value == j.fields[key]
  {
    if j.JObj? && key in j.fields then Some(j.fields[key]) else None
  }

  /** The string inside a JSON string, `None` for any other value. */
  function AsString(j: Json): (r: Option<string>)
    ensures r.Some? <==> j.JStr?
    ensures r.Some? ==> j == JStr(r.value)
  {
    if j.JStr? then Some(j.s) else None
  }
}

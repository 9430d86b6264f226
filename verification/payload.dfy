/**
 * The slice of a JSON document model that the engine's payloads need: a value is null,
 * a boolean, an integer number, a string, an array or an object. Floating-point numbers
 * are not modelled. The accessors below follow the library's behaviour on a mutable
 * value: an operation that would throw returns `None`.
 */
module Payload {
  import opened Wrappers

  datatype Json =
    | JNull
    | JBool(b: bool)
    | JNum(n: int)
    | JStr(s: string)
    | JArr(items: seq<Json>)
    | JObj(fields: map<string, Json>)

  /** The value stored under `key` in an object, null when the key is absent. */
  function Field(fields: map<string, Json>, key: string): Json {
    if key in fields then fields[key] else JNull
  }

  /**
   * `j[key]` on a mutable value: an object yields its member (null when absent), a null
   * value is silently turned into an empty object first, anything else throws.
   */
  function Member(j: Json, key: string): (r: Option<Json>)
    ensures r.Some? <==> (j.JObj? || j.JNull?)
    ensures r.Some? && r.value != JNull ==> j.JObj? && key in j.fields && j.fields[key] == r.value
  {
    match j
    case JObj(m) => Some(Field(m, key))
    case JNull => Some(JNull)
    case _ => None
  }

  /** `get<T>()` for an arithmetic `T`: numbers as they are, booleans as 0 or 1, anything else throws. */
  function Number(j: Json): (r: Option<int>)
    ensures r.Some? <==> (j.JNum? || j.JBool?)
    ensures j.JNum? ==> r == Some(j.n)
  {
    match j
    case JNum(n) => Some(n)
    case JBool(b) => Some(if b then 1 else 0)
    case _ => None
  }

  /** Conversion to a string: only a string converts, anything else throws. */
  function Text(j: Json): (r: Option<string>)
    ensures r.Some? <==> j.JStr?
  {
    match j
    case JStr(s) => Some(s)
    case _ => None
  }
}

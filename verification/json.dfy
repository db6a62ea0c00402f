/**
 * A decoded JSON document as Python's `json.loads` hands it back, with the two
 * Python operations the configuration code applies to it: `dict.get` with a
 * default, and truthiness.
 */
module Json {

  /** JSON numbers (Python `int` or `float`) are kept as exact rationals. */
  datatype Json =
    | JNull
    | JBool(b: bool)
    | JNumber(n: real)
    | JString(s: string)
    | JArray(items: seq<Json>)
    | JObject(fields: map<string, Json>)

  /** `d.get(key, default)`: the stored value when the key is present, otherwise `default`. */
  function Get(d: map<string, Json>, key: string, default: Json): Json
  {
    if key in d then d[key] else default
  }

  /** Python's `bool(j)` for a decoded JSON value: null, false, zero and empty containers are falsy. */
  predicate Truthy(j: Json)
  {
    match j
    case JNull => false
    case JBool(b) => b
    case JNumber(n) => n != 0.0
    case JString(s) => |s| > 0
    case JArray(items) => |items| > 0
    case JObject(fields) => |fields| > 0
  }
}

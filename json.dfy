/**
 * The values a decoded JSON document holds in Go once it has been read into
 * `interface{}`: nil, bool, float64 (kept here as its literal text), string,
 * `[]interface{}` and `map[string]interface{}`.
 */
module Json {

  datatype Json =
    | JNull
    | JBool(b: bool)
    | JNumber(literal: string)
    | JString(s: string)
    | JArray(items: seq<Json>)
    | JObject(fields: map<string, Json>)

  /**
   * Go's `m[k]` on a `map[string]interface{}`: a missing key reads as nil,
   * exactly like a key whose JSON value is null.
   */
  function Lookup(m: map<string, Json>, k: string): Json
  {
    if k in m then m[k] else JNull
  }
}

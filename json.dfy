/** Decoded JSON values, as Python's `json` module produces them. */
module JsonData {
  /** A JSON value as `json.loads` returns it (numbers are integers here). */
  datatype Json =
    | JNull
    | JBool(b: bool)
    | JNumber(n: int)
    | JString(s: string)
    | JArray(items: seq<Json>)
    | JObject(members: seq<(string, Json)>)

  /** Python truthiness of a decoded JSON value. */
  predicate JsonTruthy(j: Json) {
    match j
    case JNull => false
    case JBool(b) => b
    case JNumber(n) => n != 0
    case JString(s) => s != ""
    case JArray(items) => items != []
    case JObject(members) => members != []
  }
}

/** Decoded JSON values as Python's json module returns them, and the outcome of
    one HTTP exchange, which the model takes as an input instead of performing it. */
module Json {

  /** A decoded JSON document: null is Python's None, an object is a dict.
      Only integral numbers are represented. */
  datatype JsonValue =
    | JNull
    | JBool(b: bool)
    | JNumber(n: int)
    | JString(s: string)
    | JArray(items: seq<JsonValue>)
    | JObject(fields: map<string, JsonValue>)

  /** Python truthiness of a decoded value (`if v:`). */
  predicate Truthy(v: JsonValue) {
    match v
    case JNull => false
    case JBool(b) => b
    case JNumber(n) => n != 0
    case JString(s) => s != ""
    case JArray(items) => items != []
    case JObject(fields) => fields != map[]
  }

  /** Python's dict.get(key, default). */
  function GetOr(fields: map<string, JsonValue>, key: string, default: JsonValue): JsonValue {
    if key in fields then fields[key] else default
  }

  /** A response body: response.json() either fails to parse it or yields a value. */
  datatype Body = Malformed | Parsed(value: JsonValue)

  /** What the network did with one request: a transport-level failure
      (connection error, timeout, ...), or a response with its status code. */
  datatype HttpOutcome = TransportError | Response(status: int, body: Body)

  /** requests' response.raise_for_status() raises for client and server errors only. */
  predicate RaisesForStatus(status: int) {
    400 <= status < 600
  }
}

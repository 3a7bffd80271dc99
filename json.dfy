/**
 * Decoded JSON values, as Python's json module hands them to the client and
 * as the client hands them back to its caller. Floating-point numbers are not
 * modelled.
 */
module Json {

  datatype Json =
    | JNull
    | JBool(b: bool)
    | JInt(i: int)
    | JString(s: string)
    | JArray(items: seq<Json>)
    | JObject(fields: map<string, Json>)

  /** A request body while it is built: a Python dict with string keys. */
  type Payload = map<string, Json>

  /**
   * Python truthiness of a value, as in `if include:`: the falsy values are
   * exactly None, False, 0, the empty string, the empty list and the empty dict.
   */
  predicate Truthy(v: Json)
    ensures !Truthy(v) <==> v in {JNull, JBool(false), JInt(0), JString(""), JArray([]), JObject(map[])}
  {
    match v
    case JNull => false
    case JBool(b) => b
    case JInt(i) => i != 0
    case JString(s) => s != []
    case JArray(items) => items != []
    case JObject(fields) => fields != map[]
  }
}

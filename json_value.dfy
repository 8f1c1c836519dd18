/**
 * The value a JSON decoder hands back: the shape of what `json.loads`
 * produces.  Decoding text itself is done by a library and is a parameter
 * of the operations that need it.
 */
module JsonValue {

  datatype Json =
    | JNull
    | JBool(b: bool)
    | JNumber(n: real)
    | JString(s: string)
    | JArray(items: seq<Json>)
    | JObject(fields: map<string, Json>)

  /** Outcome of decoding a text as JSON: malformed text, or its value. */
  datatype Decoded = NotJson | Decoded(value: Json)
}

/** Decoded JSON values: tool definitions, parameter schemas and tool-call arguments. */
module Json {

  datatype Json =
    | JNull
    | JBool(b: bool)
    | JInt(i: int)
    | JString(s: string)
    | JArray(items: seq<Json>)
    | JObject(fields: JsonObject)

  /** A JSON object (a Python dict with string keys); key order plays no part in the model. */
  type JsonObject = map<string, Json>
}

/**
 * Parsed JSON documents and the state of a JSON file on disk. Parsing itself
 * is not modelled: a file is either absent, present but unreadable (it does
 * not parse, or reading it fails), or present with a parsed document.
 */
module JsonValue {

  /** A JSON value as Python's `json` module returns it. Numbers are integers only. */
  datatype Json =
    | JNull
    | JBool(b: bool)
    | JNumber(n: int)
    | JString(s: string)
    | JArray(items: seq<Json>)
    | JObject(members: map<string, Json>)

  datatype FileState = Absent | Malformed | Present(doc: Json)
}

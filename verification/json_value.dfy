/** Decoded JSON values, as the client hands them to the transport and gets
    them back from it. The client never inspects a value beyond the request
    object it builds itself and the top-level shape of a reply, so this is
    all the structure the model needs. */
module JsonValue {

  /** A JSON value. Numbers are integers only: the client writes integer
      ids and otherwise passes numbers through untouched. */
  datatype Json =
    | JNull
    | JBool(b: bool)
    | JInt(i: int)
    | JString(s: string)
    | JArray(items: seq<Json>)
    | JObject(fields: map<string, Json>)
}

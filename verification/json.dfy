/** The JSON values exchanged with the gateway, and the text codec the client relies on. */
module Json {
  import opened Results

  /** A JSON value. Numbers keep their literal text, so no floating point is involved. */
  datatype Json =
    | JNull
    | JBool(b: bool)
    | JNumber(literal: string)
    | JString(s: string)
    | JArray(elements: seq<Json>)
    | JObject(members: map<string, Json>)

  /**
   * The text side of JSON, left uninterpreted: `parse` answers None for text that is
   * not JSON at all (the malformed-response case), and `render` is the text an
   * element produces when the client turns it back into a string.
   */
  datatype Codec = Codec(parse: string -> Option<Json>, render: Json -> string)
}

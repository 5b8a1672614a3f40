/** Decoded JSON values as the client sees them after `Response.json()`. */
module Json {

  /**
   * A JSON value.  Numbers are integers (the client only ever sends and reads
   * integer counts); an object is a map, so its key order is not represented.
   */
  datatype Json =
    | JNull
    | JBool(b: bool)
    | JNum(n: int)
    | JStr(s: string)
    | JArr(items: seq<Json>)
    | JObj(fields: map<string, Json>)
}

/** The JSON values `json.loads` produces. */
module Json {

  /**
   * A decoded JSON value. An object is a map, so a key appears once (for a
   * repeated key `json.loads` keeps the last value); the order of its keys is
   * not represented. A number with a fraction or an exponent decodes to a
   * Python `float`; only its text is kept, as nothing in the model reads it.
   */
  datatype Json =
    | JNull
    | JBool(b: bool)
    | JInt(n: int)
    | JReal(text: string)
    | JStr(s: string)
    | JArr(items: seq<Json>)
    | JObj(fields: map<string, Json>)
}

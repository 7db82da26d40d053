/** JSON values as the request bodies and `params` objects hold them. */
module JsonValues {

  datatype Json =
    | JNull
    | JBool(b: bool)
    | JInt(i: int)       // a Python `int`
    | JFloat(f: real)    // a Python `float`, sent with a fractional part
    | JStr(s: string)
    | JArray(items: seq<Json>)
    | JObject(fields: map<string, Json>)

  /** A JSON object: a Python `dict` with string keys. */
  type Obj = map<string, Json>

  /** A number as a Python caller may pass it: an `int` or a `float`. */
  type Number = j: Json | j.JInt? || j.JFloat? witness JInt(0)
}

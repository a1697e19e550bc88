/** JSON values, the shape of data that the API schemas validate and that
    the scaffolding script writes out. */
module JsonValue {

  /** Numbers are mathematical reals: JSON has no NaN or infinity. Object keys
      are unordered here. */
  datatype Json =
    | JNull
    | JBool(b: bool)
    | JNumber(n: real)
    | JString(s: string)
    | JArray(elems: seq<Json>)
    | JObject(fields: map<string, Json>)
}

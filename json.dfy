/** JSON values as `json.loads` returns them. The parser itself is not
    modelled: callers receive it as a function from text to a value or to the
    text of the exception it raised. */
module Json {
  import opened Wrappers

  datatype Json =
    | JString(s: string)
    | JObject(fields: map<string, Json>)
    | JArray(items: seq<Json>)
    | JScalar   // a number, true, false or null

  /** The outcome of `json.loads(text)`: the value, or `str(e)` of the error. */
  type Parser = string -> Result<Json, string>

  /** `d.get(key, default)` on a parsed object. */
  function GetOr(fields: map<string, Json>, key: string, default: Json): Json {
    if key in fields then fields[key] else default
  }
}

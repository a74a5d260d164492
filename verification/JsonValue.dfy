/** Decoded JSON, as encoding/json leaves it in an any. */
module JsonValue {
  /** A decoded value; Strings is a []string, which only Go code builds.  Numbers stay text. */
  datatype Json =
    | Null
    | Bool(b: bool)
    | Number(text: string)
    | String(s: string)
    | Strings(strings: seq<string>)
    | Array(items: seq<Json>)
    | Object(fields: map<string, Json>)

  type Fields = map<string, Json>
}

/**
 * Decoded JSON values, as PHP's `json_decode($text, true)` hands them over:
 * objects become associative arrays (here a map from key to value) and
 * arrays become lists.
 */
module Json {
  import opened Wrappers

  datatype Json =
    | JNull
    | JBool(b: bool)
    | JNumber(n: real)
    | JString(s: string)
    | JArray(items: seq<Json>)
    | JObject(fields: map<string, Json>)

  /** `$j[$name]` for a non-numeric string key: only an associative array has it. */
  function Field(j: Json, name: string): Option<Json>
  {
    if j.JObject? && name in j.fields then Some(j.fields[name]) else None
  }

  /**
   * `$j[0]`: the first element of a list, the member an object decoded
   * under the key "0" (PHP turns the string key "0" into the integer key 0),
   * or the first character of a non-empty string. Null, booleans and
   * numbers have no offset 0.
   */
  function First(j: Json): Option<Json>
  {
    match j
    case JArray(items) => if |items| > 0 then Some(items[0]) else None
    case JObject(fields) => if "0" in fields then Some(fields["0"]) else None
    case JString(s) => if |s| > 0 then Some(JString(s[..1])) else None
    case _ => None
  }

  /** The list of JSON strings holding `xs`, in order. */
  function JStrings(xs: seq<string>): seq<Json>
  {
    seq(|xs|, i requires 0 <= i < |xs| => JString(xs[i]))
  }
}

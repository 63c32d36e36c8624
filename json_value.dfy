/** JSON values as produced by `json.loads` and consumed by `json.dumps`. */
module JsonValue {
  import opened Wrappers

  /** A JSON document. Numbers are integers only (floats are not modelled). */
  datatype Json =
    | JNull
    | JBool(b: bool)
    | JNum(n: int)
    | JString(s: string)
    | JArray(items: seq<Json>)
    | JObject(fields: map<string, Json>)

  /** The Python value a decoded JSON document stands for: JSON `null`
      decodes to `None`, every other document to itself. */
  function NoneIfNull(d: Json): (r: Option<Json>)
    ensures r.None? <==> d == JNull
    ensures r.Some? ==> r.value == d
  {
    match d
    case JNull => None
    case _ => Some(d)
  }
}

/** The JavaScript values `JSON.parse` can produce, and property access on
    them. `JSON.parse` itself is not defined here: the screens receive it as
    a partial function `string -> Option<Json>` (`None` when it throws). */
module Json {
  import opened Wrappers

  datatype Json =
    | JNull
    | JBool(b: bool)
    | JNumber(n: int)
    | JString(s: string)
    | JArray(items: seq<Json>)
    | JObject(fields: map<string, Json>)

  /** `v.key`: reading a property of `null` throws a `TypeError`; on an
      object it is the field or `undefined` (`None`); other values have no
      such property. */
  function Property(v: Json, key: string): (r: Result<Option<Json>>)
    ensures r.Failed? <==> v.JNull?
    ensures v.JObject? ==> r == Ok(if key in v.fields then Some(v.fields[key]) else None)
    ensures !v.JObject? && !v.JNull? ==> r == Ok(None)
  {
    match v
    case JNull => Failed
    case JObject(fields) => Ok(if key in fields then Some(fields[key]) else None)
    case _ => Ok(None)
  }

  /** `Object.keys(v).length > 0`, the test the report screen uses to
      decide whether key points are shown. */
  predicate HasKeys(v: Json) {
    match v
    case JObject(fields) => |fields| > 0
    case JArray(items) => |items| > 0
    case JString(s) => |s| > 0
    case _ => false
  }
}

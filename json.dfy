/**
  Decoded JSON documents, as Python's `json` module hands them to the viewer,
  and the two Python operations the data layer applies to them: the truth
  test of `if report:` and `dict.get(key, default)`.
  Floating-point numbers are not part of this model.
 */
module Json {
  datatype Json =
    | JNull
    | JBool(b: bool)
    | JInt(i: int)
    | JStr(s: string)
    | JArray(items: seq<Json>)
    | JObject(fields: map<string, Json>)

  /** Python's `bool(v)`: None, False, 0 and empty strings, lists and dicts are false. */
  predicate Truthy(v: Json) {
    match v
    case JNull => false
    case JBool(b) => b
    case JInt(i) => i != 0
    case JStr(s) => s != []
    case JArray(xs) => xs != []
    case JObject(m) => m != map[]
  }

  /** `fields.get(key, default)` on a decoded dict. */
  function Get(fields: map<string, Json>, key: string, default: Json): Json {
    if key in fields then fields[key] else default
  }

  /** An empty dict, the `{}` the source uses as a default. */
  const EmptyObject: Json := JObject(map[])
}

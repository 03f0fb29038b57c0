/** The JavaScript values the core inspects: parsed JSON bodies and pipeline results. */
module Json {
  import opened Wrappers

  datatype Json =
    | JNull
    | JBool(b: bool)
    | JNumber(n: real)
    | JString(s: string)
    | JArray(items: seq<Json>)
    | JObject(fields: map<string, Json>)

  /** JavaScript truthiness (NaN is not modelled). */
  predicate Truthy(v: Json)
  {
    match v
    case JNull => false
    case JBool(b) => b
    case JNumber(n) => n != 0.0
    case JString(s) => s != []
    case JArray(_) => true
    case JObject(_) => true
  }

  /** Truthiness of a value that may be `undefined` (`None`). */
  predicate Defined(v: Option<Json>)
  {
    v.Some? && Truthy(v.value)
  }

  /** `typeof v === 'object'` (true for null and arrays too). */
  predicate IsObjectType(v: Json)
  {
    v.JNull? || v.JArray? || v.JObject?
  }

  /** `v[i]`, `undefined` outside an array or past its end. */
  function Index(v: Json, i: nat): Option<Json>
  {
    if v.JArray? && i < |v.items| then Some(v.items[i]) else None
  }

  /** `v.key` on an object value; `undefined` for every other value. */
  function Member(v: Json, key: string): Option<Json>
  {
    if v.JObject? && key in v.fields then Some(v.fields[key]) else None
  }
}

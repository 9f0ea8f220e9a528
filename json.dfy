/** The Python values a decoded JSON request body can hold, and the two built-ins the handler applies to them. */
module Json {
  import opened Wrappers

  datatype Json =
    | JNull
    | JBool(b: bool)
    | JNumber(n: real)
    | JString(s: string)
    | JArray(items: seq<Json>)
    | JObject(fields: map<string, Json>)

  /** Python truth value (`not v` is its negation): None, False, 0, "", [] and {} are false. */
  function Truthy(v: Json): (b: bool)
    ensures v.JNull? ==> !b
    ensures v.JBool? ==> b == v.b
    ensures v.JNumber? ==> (b <==> v.n != 0.0)
    ensures Len(v).Some? ==> (b <==> Len(v).value > 0)
  {
    match v
    case JNull => false
    case JBool(b) => b
    case JNumber(n) => n != 0.0
    case JString(s) => s != ""
    case JArray(items) => items != []
    case JObject(fields) => fields != map[]
  }

  /** Python `len(v)`; None where `len` raises TypeError (None, bool and numbers). */
  function Len(v: Json): (n: Option<nat>)
    ensures n.Some? <==> v.JString? || v.JArray? || v.JObject?
    ensures v.JString? ==> n == Some(|v.s|)
    ensures v.JArray? ==> n == Some(|v.items|)
    ensures v.JObject? ==> n == Some(|v.fields|)
  {
    match v
    case JString(s) => Some(|s|)
    case JArray(items) => Some(|items|)
    case JObject(fields) => Some(|fields|)
    case _ => None
  }

  /** `dict.get(key)`: the value under `key`, or None (JSON null) when it is missing. */
  function Get(fields: map<string, Json>, key: string): (v: Json)
    ensures key !in fields ==> v == JNull
    ensures key in fields ==> v == fields[key]
  {
    if key in fields then fields[key] else JNull
  }
}

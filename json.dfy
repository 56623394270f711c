/**
  An abstract JSON value: what `response.json()` returns and what the SDK
  reads keys from.  Python's `None` is `JNull`.  Numbers are integers only.
 */
module Json {
  import opened Wrappers
  import opened Decimal

  datatype Json =
    | JNull
    | JBool(b: bool)
    | JInt(i: int)
    | JStr(s: string)
    | JList(items: seq<Json>)
    | JObject(fields: map<string, Json>)

  /** Python truthiness of the value (`if x:`). */
  predicate Truthy(j: Json) {
    match j
    case JNull => false
    case JBool(b) => b
    case JInt(i) => i != 0
    case JStr(s) => s != ""
    case JList(xs) => xs != []
    case JObject(m) => m != map[]
  }

  /** `d.get(key, default)` on a dictionary. */
  function Get(d: map<string, Json>, key: string, default: Json := JNull): Json
  {
    if key in d then d[key] else default
  }

  /** `str(v)` for the scalar values an f-string formats; containers get a placeholder. */
  function Render(j: Json): (r: string)
    ensures j.JInt? ==> ParseInt(r) == Some(j.i)
    ensures j.JStr? ==> r == j.s
    ensures j.JNull? ==> r == "None"
    ensures j.JBool? ==> r == (if j.b then "True" else "False")
  {
    match j
    case JNull => "None"
    case JBool(b) => if b then "True" else "False"
    case JInt(i) => ParseIntToString(i); IntToString(i)
    case JStr(s) => s
    case JList(_) => "[...]"
    case JObject(_) => "{...}"
  }
}

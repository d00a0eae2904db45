/**
 * Decoded JSON values as the Python code sees them (the result of
 * `json.loads`), with Python's truthiness and `d[key]` lookups.
 */
module JsonValue {
  import opened Wrappers

  datatype Json =
    | JNull
    | JBool(b: bool)
    | JInt(i: int)
    | JReal(r: real)
    | JStr(s: string)
    | JList(items: seq<Json>)
    | JObject(fields: map<string, Json>)

  /** Python truthiness, `bool(x)`: None, False, 0, 0.0, '', [] and {} are false. */
  predicate Truthy(j: Json) {
    match j
    case JNull => false
    case JBool(b) => b
    case JInt(i) => i != 0
    case JReal(r) => r != 0.0
    case JStr(s) => s != []
    case JList(items) => items != []
    case JObject(fields) => fields != map[]
  }

  /** How `x[key]` with a string key fails: a dict without the key raises
      KeyError, any other value raises TypeError. */
  datatype LookupError = MissingKey(key: string) | NotSubscriptable

  /** Python's `x[key]` for a string key. */
  function Index(j: Json, key: string): (r: Result<Json, LookupError>)
    ensures r.Ok? <==> j.JObject? && key in j.fields
    ensures r.Ok? ==> r.value == j.fields[key]
    ensures j.JObject? && key !in j.fields ==> r == Err(MissingKey(key))
  {
    match j
    case JObject(fields) => if key in fields then Ok(fields[key]) else Err(MissingKey(key))
    case _ => Err(NotSubscriptable)
  }

  /** `isinstance(value, (int, str))`: a Python bool is an int. */
  predicate IsIntOrStr(j: Json) {
    j.JInt? || j.JBool? || j.JStr?
  }

  /** A list of Python strings as JSON values, one string each, in order. */
  function StrList(xs: seq<string>): (r: seq<Json>)
    ensures |r| == |xs| && forall i :: 0 <= i < |xs| ==> r[i] == JStr(xs[i])
  {
    seq(|xs|, i requires 0 <= i < |xs| => JStr(xs[i]))
  }
}

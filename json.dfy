/**
 * The values `json.loads` produces, and the two Python built-ins the core applies to
 * them: `dict.get` and `int(...)`.
 */
module Json {
  import opened Wrappers
  import opened PyText

  datatype Json =
    | JNull
    | JBool(b: bool)
    | JInt(i: int)
    | JFloat(r: real)
    | JStr(s: string)
    | JArray(items: seq<Json>)
    | JObject(fields: map<string, Json>)

  /** `d.get(key)`: the stored value, or `None` when the key is absent. */
  function Get(d: map<string, Json>, key: string): (v: Json)
    ensures key !in d ==> v == JNull
  {
    if key in d then d[key] else JNull
  }

  /** `isinstance(v, int)`: in Python `bool` is a subclass of `int`. */
  predicate IsPyInt(v: Json) {
    v.JInt? || v.JBool?
  }

  /** The integer value of a `bool` or an `int`. */
  function IntValue(v: Json): int
    requires IsPyInt(v)
  {
    if v.JInt? then v.i else if v.b then 1 else 0
  }

  /** Truncation toward zero, as `int(x)` does for a float. */
  function TruncReal(r: real): (n: int)
    ensures r >= 0.0 ==> n as real <= r < n as real + 1.0
    ensures r < 0.0 ==> n as real - 1.0 < r <= n as real
  {
    if r >= 0.0 then r.Floor else -((-r).Floor)
  }

  /** `int(v)`: `None` where Python raises (None, lists, dicts, non-numeric strings). */
  function PyInt(v: Json): Option<int> {
    match v
    case JBool(b) => Some(if b then 1 else 0)
    case JInt(i) => Some(i)
    case JFloat(r) => Some(TruncReal(r))
    case JStr(s) => ParseInt(s)
    case _ => None
  }
}

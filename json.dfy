/**
 * Decoded JSON/YAML values as the Python code sees them after `json`/`yaml`
 * decoding: the payloads exchanged over the socket and the component
 * configuration dictionaries.
 */
module Json {
  import opened Wrappers

  /** Python `int` and `float` are kept apart because the code indexes lists with config values. */
  datatype Json =
    | JNull
    | JBool(b: bool)
    | JInt(i: int)
    | JReal(r: real)
    | JStr(s: string)
    | JArr(items: seq<Json>)
    | JObj(fields: map<string, Json>)

  /** A frame or a world state: object key -> descriptor. */
  type Payload = map<string, Json>

  /** Python truthiness (`if not x`) of a decoded value. */
  predicate Truthy(j: Json) {
    match j
    case JNull => false
    case JBool(b) => b
    case JInt(i) => i != 0
    case JReal(r) => r != 0.0
    case JStr(s) => s != ""
    case JArr(a) => a != []
    case JObj(m) => m != map[]
  }

  /** `d.get(k)`: None when the key is absent. */
  function Get(d: map<string, Json>, k: string): (r: Option<Json>)
    ensures r.Some? <==> k in d
    ensures r.Some? ==> r.value == d[k]
  {
    if k in d then Some(d[k]) else None
  }

  /** `d.get(k, default)`: a stored value wins, even a stored null. */
  function GetOr(d: map<string, Json>, k: string, default: Json): (j: Json)
    ensures k in d ==> j == d[k]
    ensures k !in d ==> j == default
  {
    Get(d, k).GetOr(default)
  }

  /** `[0, 0, 0, 0, 0, 0]`: the all-zero pose or offset as the code writes it. */
  function ZeroSix(): (j: Json)
    ensures j.JArr? && |j.items| == 6 && forall k :: 0 <= k < 6 ==> j.items[k] == JInt(0)
  {
    JArr([JInt(0), JInt(0), JInt(0), JInt(0), JInt(0), JInt(0)])
  }

  /** A list of reals as the JSON array `[x, y, ...]`. */
  function Reals(xs: seq<real>): (r: Json)
    ensures r.JArr? && |r.items| == |xs|
    ensures forall i :: 0 <= i < |xs| ==> r.items[i] == JReal(xs[i])
  {
    JArr(seq(|xs|, i requires 0 <= i < |xs| => JReal(xs[i])))
  }
}

/** JSON values as the backend sees them after `json.loads`: Python's `bool`, `int`,
    `float`, `str`, `list` and `dict`, with Python's truthiness and conversions. */
module Json {
  import opened Wrappers
  import opened Numbers

  datatype Json =
    | JNull
    | JBool(b: bool)
    | JInt(i: int)
    | JFloat(f: real)
    | JStr(s: string)
    | JArr(items: seq<Json>)
    | JObj(fields: map<string, Json>)

  /** `isinstance(v, (int, float))`; `bool` is a subclass of `int` in Python, so it counts. */
  predicate IsNumber(v: Json) {
    v.JBool? || v.JInt? || v.JFloat?
  }

  /** Python truthiness (`if v:`). */
  predicate Truthy(v: Json) {
    match v
    case JNull => false
    case JBool(b) => b
    case JInt(i) => i != 0
    case JFloat(f) => f != 0.0
    case JStr(s) => s != ""
    case JArr(items) => |items| > 0
    case JObj(fields) => |fields| > 0
  }

  /** `v` is a string among `names` (`v in [...]` against a list of string literals). */
  predicate IsOneOf(v: Json, names: seq<string>) {
    v.JStr? && v.s in names
  }

  /** `d.get(key)` on a dict; None when `d` is no dict or lacks the key. */
  function Get(d: Json, key: string): Option<Json> {
    if d.JObj? && key in d.fields then Some(d.fields[key]) else None
  }

  /** Python `float(v)`; None stands for the ValueError / TypeError it raises. */
  function ToFloat(v: Json): Option<real> {
    match v
    case JBool(b) => Some(if b then 1.0 else 0.0)
    case JInt(i) => Some(i as real)
    case JFloat(f) => Some(f)
    case JStr(s) => PyFloat(s)
    case _ => None
  }

  /** Python `int(v)`; None stands for the ValueError / TypeError it raises. */
  function ToInt(v: Json): Option<int> {
    match v
    case JBool(b) => Some(if b then 1 else 0)
    case JInt(i) => Some(i)
    case JFloat(f) => Some(TruncToInt(f))
    case JStr(s) => PyInt(s)
    case _ => None
  }

  /** A JavaScript number after `JSON.stringify` and `json.loads`: integral values arrive
      as Python `int`, the others as `float`. */
  function FromNumber(x: real): (v: Json)
    ensures IsNumber(v) && ToFloat(v) == Some(x)
  {
    if x.Floor as real == x then JInt(x.Floor) else JFloat(x)
  }
}

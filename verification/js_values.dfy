/** The builder's plain JavaScript objects, seen through the JSON values they are sent
    as. A property set to `undefined` is the same as an absent one (`JSON.stringify`
    drops it and reading it gives `undefined` either way), so it is modelled as absent. */
module JsValues {
  import opened Wrappers
  import opened Json

  /** JavaScript truthiness: unlike Python, every array and object is truthy. */
  predicate JsTruthy(v: Json) {
    match v
    case JNull => false
    case JBool(b) => b
    case JInt(i) => i != 0
    case JFloat(f) => f != 0.0
    case JStr(s) => s != ""
    case JArr(_) => true
    case JObj(_) => true
  }

  /** `o.key`; None stands for `undefined` (an absent key, or `o` no object). */
  function Field(o: Json, key: string): (r: Option<Json>)
    ensures r.Some? <==> o.JObj? && key in o.fields
  {
    if o.JObj? && key in o.fields then Some(o.fields[key]) else None
  }

  /** A present and truthy property. */
  predicate Has(o: Json, key: string) {
    Field(o, key).Some? && JsTruthy(Field(o, key).value)
  }

  /** `{ ...o, [key]: v }` on an object's properties. */
  function Put(fields: map<string, Json>, key: string, v: Option<Json>): (r: map<string, Json>)
    ensures v.Some? ==> key in r && r[key] == v.value
    ensures v.None? ==> key !in r
    ensures forall k :: k != key ==> (k in r <==> k in fields) && (k in r ==> r[k] == fields[k])
  {
    match v
    case Some(x) => fields[key := x]
    case None => fields - {key}
  }

  /** `a || b` where `a` may be `undefined`. */
  function Or(a: Option<Json>, b: Json): (r: Json)
    ensures a.Some? && JsTruthy(a.value) ==> r == a.value
    ensures !(a.Some? && JsTruthy(a.value)) ==> r == b
  {
    if a.Some? && JsTruthy(a.value) then a.value else b
  }
}

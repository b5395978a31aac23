/**
 * Values produced by `JSON.parse`, with the two pieces of JavaScript semantics the
 * views apply to them: truthiness and property access (`v.key`, `v.key || d`).
 * Numbers are modelled as integers.
 */
module JsonValues {
  import opened Wrappers

  datatype Json =
    | JNull
    | JBool(b: bool)
    | JNum(n: int)
    | JStr(s: string)
    | JArr(items: seq<Json>)
    | JObj(fields: map<string, Json>)

  /** JavaScript truthiness: `null`, `false`, `0` and `""` are falsy; arrays and objects are truthy. */
  predicate Truthy(v: Json): (b: bool)
    ensures !b <==> v == JNull || v == JBool(false) || v == JNum(0) || v == JStr("")
  {
    match v
    case JNull => false
    case JBool(b) => b
    case JNum(n) => n != 0
    case JStr(s) => s != ""
    case JArr(_) => true
    case JObj(_) => true
  }

  /**
   * `v.key` for a value `v` that is not `null`; `None` stands for `undefined`.
   * Only objects carry the keys the views read ("ATS", "score", "tips").
   */
  function Prop(v: Json, key: string): (r: Option<Json>)
    ensures r.Some? ==> v.JObj? && key in v.fields && r.value == v.fields[key]
    ensures v.JObj? && key in v.fields ==> r.Some?
  {
    match v
    case JObj(fields) => if key in fields then Some(fields[key]) else None
    case _ => None
  }

  /** `x || d` where `x` may be `undefined`: the value itself when it is truthy, otherwise `d`. */
  function OrElse(x: Option<Json>, d: Json): (r: Json)
    ensures Truthy(d) ==> Truthy(r)
    ensures r == d || (x == Some(r) && Truthy(r))
    ensures x.Some? && Truthy(x.value) ==> r == x.value
    ensures !(x.Some? && Truthy(x.value)) ==> r == d
  {
    if x.Some? && Truthy(x.value) then x.value else d
  }
}

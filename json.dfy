/** Parsed JSON values as the browser client handles them, with JavaScript truthiness. */
module Json {
  import opened Wrappers

  /** A parsed JSON value. Numbers are integers in this model. */
  datatype Json =
    | Null
    | Bool(b: bool)
    | Num(n: int)
    | Str(s: string)
    | Arr(elems: seq<Json>)
    | Obj(fields: map<string, Json>)

  /** JavaScript truthiness: `null`, `false`, `0` and `""` are falsy; arrays and objects never are. */
  predicate Truthy(j: Json) {
    match j
    case Null => false
    case Bool(b) => b
    case Num(n) => n != 0
    case Str(s) => s != ""
    case Arr(_) => true
    case Obj(_) => true
  }

  /** The property read `j?.k`: `None` is `undefined` (a missing key, or `j` not an object). */
  function Field(j: Json, k: string): Option<Json> {
    if j.Obj? && k in j.fields then Some(j.fields[k]) else None
  }

  /** `a || b` where `a` may be `undefined`: `a` when it is truthy, otherwise `b`. */
  function Or(a: Option<Json>, b: Json): (r: Json)
    ensures Truthy(r) <==> (a.Some? && Truthy(a.value)) || Truthy(b)
    ensures Truthy(b) ==> Truthy(r)
  {
    if a.Some? && Truthy(a.value) then a.value else b
  }
}

/**
 * The decoded body of an API response, as `response.json()` hands it to the
 * spider: a tagged value. JSON `null` and Python `None` are the same value
 * here, so a missing key read with `dict.get` is `Null` as well.
 */
module JsonValue {
  import opened Text

  datatype Json =
    | Null
    | Bool(b: bool)
    | Num(n: int)
    | Str(s: string)
    | Arr(items: seq<Json>)
    | Obj(fields: map<string, Json>)

  /** Python truthiness, `bool(v)`, of a decoded value. */
  predicate Truthy(v: Json) {
    match v
    case Null => false
    case Bool(b) => b
    case Num(n) => n != 0
    case Str(s) => s != ""
    case Arr(xs) => xs != []
    case Obj(m) => m != map[]
  }

  /** `d.get(k)` on a decoded object. */
  function Field(m: map<string, Json>, k: string): Json {
    if k in m then m[k] else Null
  }

  /** Python's `a or b`: the first operand when it is truthy, else the second
      (which is returned even when it is falsy). */
  function Or(a: Json, b: Json): (r: Json)
    ensures Truthy(r) <==> Truthy(a) || Truthy(b)
    ensures Truthy(a) ==> r == a
    ensures !Truthy(a) ==> r == b
  {
    if Truthy(a) then a else b
  }

  /** `f"{v}"`: how a value is formatted into a string. Lists and objects use
      Python's `repr`, which is passed in. */
  function Show(v: Json, repr: Json -> string): string {
    match v
    case Null => "None"
    case Bool(b) => if b then "True" else "False"
    case Num(n) => Decimal(n)
    case Str(s) => s
    case _ => repr(v)
  }
}

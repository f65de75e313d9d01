/**
 JSON values as the Python tools see them after decoding, and the two Python
 notions the tools rely on: truth of a value and membership of a hashable value.
 */
module Json {
  datatype Json =
    | Null
    | Bool(b: bool)
    | Num(n: int)
    | Str(s: string)
    | Arr(elems: seq<Json>)
    | Obj(members: map<string, Json>)

  /** What `if value:` asks. */
  predicate Truthy(v: Json) {
    match v
    case Null => false
    case Bool(b) => b
    case Num(n) => n != 0
    case Str(s) => s != ""
    case Arr(xs) => xs != []
    case Obj(m) => m != map[]
  }

  /** Lists and dictionaries cannot be looked up in a set or used as a key. */
  predicate Hashable(v: Json) {
    !v.Arr? && !v.Obj?
  }

  predicate Distinct(xs: seq<Json>) {
    forall i, j :: 0 <= i < j < |xs| ==> xs[i] != xs[j]
  }
}

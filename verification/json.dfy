/**
 * The JSON values the client and the mock server pass around, with
 * JavaScript's truthiness and its `undefined`-on-missing-field lookup.
 * Numbers are integers; fractional values are not part of this model.
 */
module Json {
  import opened Wrappers

  datatype Json =
    | Null
    | Bool(b: bool)
    | Num(n: int)
    | Str(s: string)
    | Arr(items: seq<Json>)
    | Obj(fields: map<string, Json>)

  /** `!!v`: `null`, `false`, `0` and `""` are falsy, everything else truthy. */
  predicate Truthy(v: Json) {
    match v
    case Null => false
    case Bool(b) => b
    case Num(n) => n != 0
    case Str(s) => s != []
    case Arr(_) => true
    case Obj(_) => true
  }

  /** `v.key`: `None` stands for `undefined` (a missing field, or a value
      that is not an object). */
  function Get(v: Json, key: string): (r: Option<Json>)
    ensures r.Some? <==> v.Obj? && key in v.fields
    ensures r.Some? ==> r.value == v.fields[key]
  {
    if v.Obj? && key in v.fields then Some(v.fields[key]) else None
  }

  /** A possibly-undefined value is truthy. */
  predicate TruthyOpt(o: Option<Json>) {
    o.Some? && Truthy(o.value)
  }

  /** `null` or `undefined`: what `??` skips over. */
  predicate Nullish(o: Option<Json>) {
    o.None? || o.value.Null?
  }

  /** `a ?? b` on possibly-undefined values. */
  function Coalesce(a: Option<Json>, b: Option<Json>): (r: Option<Json>)
    ensures !Nullish(a) ==> r == a
    ensures Nullish(a) ==> r == b
  {
    if Nullish(a) then b else a
  }
}

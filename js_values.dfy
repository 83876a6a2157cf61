/** JavaScript values as the data layer sees them: records are plain objects whose
    fields are looked up by name, compared with `===`, and added with `+`. */
module JsValues {

  datatype Option<+T> = None | Some(value: T)

  /** The `{success, data?, error?}` envelope: `success == Ok?`. */
  datatype Result<+T> = Ok(data: T) | Err(error: string)

  /** A JavaScript value. Numbers are integral here (ids; money in cents),
      exact at any size where a JavaScript number is a double that rounds
      beyond 2^53; `NaN` is the one other number, and `Infinity` is left out. */
  datatype Value =
    | Num(n: int)
    | NaN
    | Str(s: string)
    | Bool(b: bool)
    | Null
    | Undefined
    | List(items: seq<Value>)
    | Obj(fields: JsObject)

  /** A plain object: field name to value. Spreading `{...a, ...b}` is `a + b`. */
  type JsObject = map<string, Value>

  /** Property access `o[k]`: a missing property reads as `undefined`. */
  function Get(o: JsObject, k: string): Value {
    if k in o then o[k] else Undefined
  }

  /** Strict equality `===`. `NaN` equals nothing, itself included; objects and
      arrays compare by reference, and no two of them are taken to be the same one. */
  predicate StrictEq(a: Value, b: Value) {
    match (a, b)
    case (Num(x), Num(y)) => x == y
    case (Str(x), Str(y)) => x == y
    case (Bool(x), Bool(y)) => x == y
    case (Null, Null) => true
    case (Undefined, Undefined) => true
    case _ => false
  }

  /** A primitive other than NaN, i.e. a value that `===` relates to itself. */
  predicate IsComparable(v: Value) {
    v.Num? || v.Str? || v.Bool? || v.Null? || v.Undefined?
  }

  lemma StrictEqMeansEqual(a: Value, b: Value)
    ensures StrictEq(a, b) <==> IsComparable(a) && a == b
  {
  }

  /** `a + b` on numbers; any other operand makes the sum NaN. */
  function JsAdd(a: Value, b: Value): Value {
    if a.Num? && b.Num? then Num(a.n + b.n) else NaN
  }
}

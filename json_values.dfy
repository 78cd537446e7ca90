/**
  The scalar values a decoded JSON object holds, with the two pieces of Python
  semantics the relay relies on: truthiness (`if game_id:`) and `==`.
 */
module JsonValues {

  /** A scalar JSON value as `json.loads` produces it; numbers are reals. */
  datatype Value = Null | Bool(b: bool) | Num(n: real) | Str(s: string)

  /** A decoded JSON object: field name to value. */
  type Record = map<string, Value>

  /** Python's truth value of a decoded scalar. */
  predicate Truthy(v: Value)
  {
    match v
    case Null => false
    case Bool(b) => b
    case Num(n) => n != 0.0
    case Str(s) => s != ""
  }

  /** Python's `a == b` on decoded scalars: a bool compares with a number as 0 or 1. */
  predicate PyEquals(a: Value, b: Value)
  {
    match (a, b)
    case (Bool(x), Num(y)) => y == if x then 1.0 else 0.0
    case (Num(x), Bool(y)) => x == if y then 1.0 else 0.0
    case _ => a == b
  }

  /** `record.get(key)`: the field's value, or None when the field is absent. */
  function Get(r: Record, key: string): Value
  {
    if key in r then r[key] else Null
  }
}

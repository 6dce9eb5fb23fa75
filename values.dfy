/**
 * Python values as the kernel's validators and setters see them: the decoded
 * JSON of a saved scene, or an argument handed to a validated setter.
 * `bool` is a subclass of `int` in Python, and floats can be NaN or infinite,
 * so both are explicit here.
 */
module Values {
  import opened Wrappers

  datatype Value =
    | NoneValue
    | Bool(b: bool)
    | Int(i: int)
    | Float(f: real)             // a finite float
    | NaN
    | Infinity(positive: bool)
    | Str(s: string)
    | List(items: seq<Value>)
    | Dict(entries: map<string, Value>)
    | Opaque                     // any other object: a tuple, a class instance, ...

  /** `isinstance(v, (int, float))`: true of bools, ints and every float. */
  predicate IsIntOrFloat(v: Value) {
    v.Bool? || v.Int? || v.Float? || v.NaN? || v.Infinity?
  }

  /** `isinstance(v, int)`: true of bools too. */
  predicate IsInt(v: Value) {
    v.Bool? || v.Int?
  }

  /** A number with a finite value. */
  predicate IsFiniteNumber(v: Value) {
    v.Bool? || v.Int? || v.Float?
  }

  /** The mathematical value of a finite number (`True` is 1, `False` is 0). */
  function AsReal(v: Value): real
    requires IsFiniteNumber(v)
  {
    match v
    case Bool(b) => if b then 1.0 else 0.0
    case Int(i) => i as real
    case Float(f) => f
  }

  /** `v < 0` for a number: false for NaN and for +inf, true for -inf. */
  predicate IsNegative(v: Value)
    requires IsIntOrFloat(v)
  {
    match v
    case NaN => false
    case Infinity(positive) => !positive
    case _ => AsReal(v) < 0.0
  }

  /** `math.isfinite(v)`: a TypeError for anything that is not a number. */
  function IsFinite(v: Value): (r: Result<bool>)
    ensures r.Err? <==> !IsIntOrFloat(v)
    ensures r.Err? ==> r.error == TypeError
    ensures r.Ok? ==> (r.value <==> IsFiniteNumber(v))
  {
    if !IsIntOrFloat(v) then Err(TypeError)
    else Ok(!(v.NaN? || v.Infinity?))
  }

  /** `d.get(key, None)`. */
  function Get(d: map<string, Value>, key: string): Value {
    if key in d then d[key] else NoneValue
  }
}

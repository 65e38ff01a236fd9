/**
 * The JSON values the settings and the exclusion constraints are read from, and
 * the conversions of the JSON library's value type that they use (asBool, asInt,
 * asUInt, asDouble). A JSON integer is one unbounded `Int`; doubles are reals.
 */
module Json {
  import opened Wrappers

  datatype JsonValue =
    | Null
    | Bool(b: bool)
    | Int(i: int)
    | Real(r: real)
    | Str(s: string)
    | Array(items: seq<JsonValue>)

  const INT_MIN: int := -0x8000_0000
  const INT_MAX: int := 0x7FFF_FFFF
  const UINT_MAX: int := 0xFFFF_FFFF

  const NOT_CONVERTIBLE := "Value is not convertible"
  const OUT_OF_RANGE := "Value is out of range"

  /** Rounds toward zero, as a C cast from double to an integer does. */
  function Truncate(r: real): (n: int)
    ensures r >= 0.0 ==> n as real <= r < n as real + 1.0
    ensures r < 0.0 ==> n as real - 1.0 < r <= n as real
  {
    if r >= 0.0 then r.Floor else -((-r).Floor)
  }

  /** Null is false, numbers are true unless zero; strings and arrays do not convert. */
  function AsBool(v: JsonValue): (r: Result<bool>)
    ensures r.Ok? <==> !v.Str? && !v.Array?
    ensures v.Bool? ==> r == Ok(v.b)
    ensures v.Null? ==> r == Ok(false)
    ensures v.Int? ==> r == Ok(v.i != 0)
  {
    match v
    case Null => Ok(false)
    case Bool(b) => Ok(b)
    case Int(i) => Ok(i != 0)
    case Real(x) => Ok(x != 0.0)
    case _ => Err(NOT_CONVERTIBLE)
  }

  /** A signed 32-bit integer; numbers outside that range and non-numbers throw. */
  function AsInt(v: JsonValue): (r: Result<int>)
    ensures r.Ok? ==> INT_MIN <= r.value <= INT_MAX
    ensures v.Int? ==> (r.Ok? <==> INT_MIN <= v.i <= INT_MAX)
    ensures v.Int? && r.Ok? ==> r.value == v.i
    ensures v.Str? || v.Array? ==> r.Err?
  {
    match v
    case Null => Ok(0)
    case Bool(b) => Ok(if b then 1 else 0)
    case Int(i) => if INT_MIN <= i <= INT_MAX then Ok(i) else Err(OUT_OF_RANGE)
    case Real(x) => if INT_MIN as real <= x <= INT_MAX as real then Ok(Truncate(x)) else Err(OUT_OF_RANGE)
    case _ => Err(NOT_CONVERTIBLE)
  }

  /** An unsigned 32-bit integer; negative numbers, numbers too large and non-numbers throw. */
  function AsUInt(v: JsonValue): (r: Result<nat>)
    ensures r.Ok? ==> r.value <= UINT_MAX
    ensures v.Int? ==> (r.Ok? <==> 0 <= v.i <= UINT_MAX)
    ensures v.Int? && r.Ok? ==> r.value == v.i
    ensures v.Str? || v.Array? ==> r.Err?
  {
    match v
    case Null => Ok(0)
    case Bool(b) => Ok(if b then 1 else 0)
    case Int(i) => if 0 <= i <= UINT_MAX then Ok(i) else Err(OUT_OF_RANGE)
    case Real(x) => if 0.0 <= x <= UINT_MAX as real then Ok(Truncate(x)) else Err(OUT_OF_RANGE)
    case _ => Err(NOT_CONVERTIBLE)
  }

  /** Numbers become doubles, null is 0 and booleans are 0 or 1; strings and arrays throw. */
  function AsDouble(v: JsonValue): (r: Result<real>)
    ensures r.Ok? <==> !v.Str? && !v.Array?
    ensures v.Real? ==> r == Ok(v.r)
    ensures v.Int? ==> r == Ok(v.i as real)
  {
    match v
    case Null => Ok(0.0)
    case Bool(b) => Ok(if b then 1.0 else 0.0)
    case Int(i) => Ok(i as real)
    case Real(x) => Ok(x)
    case _ => Err(NOT_CONVERTIBLE)
  }
}

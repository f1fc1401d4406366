/**
 * The few Python values and built-ins the detection pipeline relies on:
 * the values found in a detector entry, `int()`, `float()`, dictionary
 * lookup, list indexing (negative indices count from the end) and the
 * exceptions these raise.
 */
module PyValues {
  import opened Wrappers
  import Decimal

  /** The exceptions the modelled code can raise. */
  datatype Exc =
    | KeyError
    | TypeError
    | ValueError
    | IndexError
    | OverflowError
    | NameError
    | AttributeError
    | FileNotFoundError
    | BoardConfigError  // the plain `Exception` raised when no board profile is found
    | PreconditionError

  /** A dynamically typed value as a detector entry or a caller hands it over. */
  datatype PyValue =
    | PyNone
    | PyInt(i: int)
    | PyFloat(f: real)
    | PyStr(s: string)

  /** A dictionary with string keys, such as one detector entry. */
  type Dict = map<string, PyValue>

  /** `d[k]` on a dictionary with string keys. */
  function Lookup<V>(d: map<string, V>, k: string): (r: Result<V, Exc>)
    ensures r.Ok? <==> k in d
    ensures r.Ok? ==> r.value == d[k]
    ensures r.Err? ==> r.error == KeyError
  {
    if k in d then Ok(d[k]) else Err(KeyError)
  }

  predicate IsNumber(v: PyValue) { v.PyInt? || v.PyFloat? }

  function NumberValue(v: PyValue): real
    requires IsNumber(v)
  {
    if v.PyInt? then v.i as real else v.f
  }

  /** Conversion of a real to an integer by truncation toward zero, as `int(3.7) == 3` and `int(-3.7) == -3`. */
  function Truncate(r: real): (n: int)
    ensures 0.0 <= r ==> 0 <= n && n as real <= r < n as real + 1.0
    ensures r < 0.0 ==> n <= 0 && n as real - 1.0 < r <= n as real
  {
    if r >= 0.0 then r.Floor else -((-r).Floor)
  }

  /** Python's `int(v)`: `None` raises TypeError, a non-numeric string ValueError. */
  function IntOf(v: PyValue): (r: Result<int, Exc>)
    ensures r.Err? ==> r.error == TypeError || r.error == ValueError
    ensures r.Err? && r.error == TypeError <==> v.PyNone?
    ensures v.PyInt? ==> r == Ok(v.i)
    ensures v.PyFloat? ==> r == Ok(Truncate(v.f))
    ensures v.PyStr? ==> r.Ok? == Decimal.ParseInt(v.s).Some?
    ensures v.PyStr? && Decimal.ParseInt(v.s).Some? ==> r == Ok(Decimal.ParseInt(v.s).value)
  {
    match v
    case PyNone => Err(TypeError)
    case PyInt(i) => Ok(i)
    case PyFloat(f) => Ok(Truncate(f))
    case PyStr(s) =>
      match Decimal.ParseInt(s)
      case Some(n) => Ok(n)
      case None => Err(ValueError)
  }

  /** Python's `float(v)`; of string syntax only the integer forms are modelled. */
  function FloatOf(v: PyValue): (r: Result<real, Exc>)
    ensures r.Err? && r.error == TypeError <==> v.PyNone?
    ensures IsNumber(v) ==> r == Ok(NumberValue(v))
  {
    match v
    case PyNone => Err(TypeError)
    case PyInt(i) => Ok(i as real)
    case PyFloat(f) => Ok(f)
    case PyStr(s) =>
      match Decimal.ParseInt(s)
      case Some(n) => Ok(n as real)
      case None => Err(ValueError)
  }

  /**
   * `xs[i]` on a Python list: `0 <= i < len` selects from the front,
   * `-len <= i < 0` from the back, anything else raises IndexError.
   */
  function PyIndex<T>(xs: seq<T>, i: int): (r: Result<T, Exc>)
    ensures r.Ok? <==> -|xs| <= i < |xs|
    ensures 0 <= i < |xs| ==> r == Ok(xs[i])
    ensures -|xs| <= i < 0 ==> r == Ok(xs[|xs| + i])
    ensures r.Err? ==> r.error == IndexError
  {
    if 0 <= i < |xs| then Ok(xs[i])
    else if -|xs| <= i < 0 then Ok(xs[|xs| + i])
    else Err(IndexError)
  }

  /** Python's `x == -1.0` for a value found in an entry. */
  predicate EqualsMinusOne(v: PyValue)
  {
    match v
    case PyInt(i) => i == -1
    case PyFloat(f) => f == -1.0
    case _ => false
  }

  /** Python's `v < t` for a float `t`; comparing `None` or a string with a float raises TypeError. */
  function LessThan(v: PyValue, t: real): (r: Result<bool, Exc>)
    ensures r.Ok? <==> IsNumber(v)
    ensures r.Ok? ==> r.value == (NumberValue(v) < t)
  {
    if IsNumber(v) then Ok(NumberValue(v) < t) else Err(TypeError)
  }

  /** Truth value of an optional string argument (`None` and `''` are false). */
  predicate Truthy(o: Option<string>) { o.Some? && o.value != "" }

  /** Truth value of an optional integer argument (`None` and `0` are false). */
  predicate TruthyInt(o: Option<int>) { o.Some? && o.value != 0 }
}

/** Python argument values as the constructors of the forecaster inspect them:
    truthiness (for `hidden_dim or backcast`), `isinstance(v, int)` (which a
    bool passes), the arithmetic that derives `n_theta`, and the exceptions
    raised when a check fails. */
module PyValues {

  /** The value passed for one constructor argument. `PyText` stands for any
      object that is not a number (a string, a list, ...): `+ 1` on it raises
      TypeError. */
  datatype Value =
    | PyNone
    | PyBool(b: bool)
    | PyInt(i: int)
    | PyFloat(f: real)
    | PyText(s: string)

  /** The exceptions the core raises. `ValueError` names what it complains
      about; `AxisError` is numpy's, raised when `moveaxis` is given an axis
      the array does not have. */
  datatype Error =
    | ValueError(subject: string)
    | TypeError
    | IndexError
    | AxisError

  datatype Result<T> = Ok(value: T) | Err(error: Error)

  datatype Option<T> = None | Some(value: T)

  /** Python truthiness. */
  predicate Truthy(v: Value) {
    match v
    case PyNone => false
    case PyBool(b) => b
    case PyInt(i) => i != 0
    case PyFloat(f) => f != 0.0
    case PyText(s) => s != ""
  }

  /** Python `a or b`: the first operand when it is truthy, else the second. */
  function Or(a: Value, b: Value): Value {
    if Truthy(a) then a else b
  }

  /** `isinstance(v, int)`; `bool` is a subclass of `int` in Python. */
  predicate IsInt(v: Value) {
    v.PyInt? || v.PyBool?
  }

  function AsInt(v: Value): int
    requires IsInt(v)
  {
    if v.PyBool? then (if v.b then 1 else 0) else v.i
  }

  /** `isinstance(v, int) and v > 0` */
  predicate PositiveInt(v: Value) {
    IsInt(v) && AsInt(v) > 0
  }

  /** `isinstance(v, int) and v >= 0` */
  predicate NonNegativeInt(v: Value) {
    IsInt(v) && AsInt(v) >= 0
  }

  /** `v is None or (isinstance(v, int) and v > 0)` */
  predicate PositiveIntOrNone(v: Value) {
    v.PyNone? || PositiveInt(v)
  }

  /** Python `v + k` for an int `k`. */
  function AddInt(v: Value, k: int): Result<Value> {
    match v
    case PyNone => Err(TypeError)
    case PyText(_) => Err(TypeError)
    case PyFloat(f) => Ok(PyFloat(f + k as real))
    case _ => Ok(PyInt(AsInt(v) + k))
  }

  /** Python `2 * v`; a sequence is repeated. */
  function Twice(v: Value): Result<Value> {
    match v
    case PyNone => Err(TypeError)
    case PyText(s) => Ok(PyText(s + s))
    case PyFloat(f) => Ok(PyFloat(2.0 * f))
    case _ => Ok(PyInt(2 * AsInt(v)))
  }

  /** `d + 1`, the `n_theta` of a Trend block or stack. */
  function DegreePlusOne(d: Value): (r: Result<Value>)
    ensures r.Err? <==> !(IsInt(d) || d.PyFloat?)
    ensures IsInt(d) ==> r == Ok(PyInt(AsInt(d) + 1))
    ensures r.Ok? && PositiveInt(r.value) ==> NonNegativeInt(d)
  {
    AddInt(d, 1)
  }

  /** `2 * h + 1`, the `n_theta` of a Seasonality block or stack. */
  function TwiceHarmonicsPlusOne(h: Value): (r: Result<Value>)
    ensures r.Err? <==> !(IsInt(h) || h.PyFloat?)
    ensures IsInt(h) ==> r == Ok(PyInt(2 * AsInt(h) + 1))
    ensures r.Ok? && PositiveInt(r.value) ==> NonNegativeInt(h)
  {
    match Twice(h)
    case Err(e) => Err(e)
    case Ok(v) => AddInt(v, 1)
  }

  /** One check of a `_validate_params` loop. */
  datatype Rule = Positive | NonNegative | PositiveOrNone | Boolean

  datatype Check = Check(name: string, value: Value, rule: Rule)

  predicate Passes(c: Check) {
    match c.rule
    case Positive => PositiveInt(c.value)
    case NonNegative => NonNegativeInt(c.value)
    case PositiveOrNone => PositiveIntOrNone(c.value)
    case Boolean => c.value.PyBool?
  }

  /** The position of the first failing check, as a `for name in [...]` loop
      that raises on the first bad value finds it. */
  function FirstFailure(checks: seq<Check>): (r: Option<nat>)
    ensures r.None? <==> forall i :: 0 <= i < |checks| ==> Passes(checks[i])
    ensures r.Some? ==> r.value < |checks| && !Passes(checks[r.value])
    ensures r.Some? ==> forall j :: 0 <= j < r.value ==> Passes(checks[j])
  {
    if checks == [] then None
    else if !Passes(checks[0]) then Some(0)
    else match FirstFailure(checks[1..])
      case None => None
      case Some(k) => Some(k + 1)
  }

  /** Runs the checks in order: ValueError naming the first failing one. */
  function RunChecks(checks: seq<Check>): (r: Result<()>)
    ensures r.Ok? <==> forall i :: 0 <= i < |checks| ==> Passes(checks[i])
    ensures r.Err? ==> exists i :: 0 <= i < |checks| && r.error == ValueError(checks[i].name) && !Passes(checks[i])
  {
    match FirstFailure(checks)
    case None => Ok(())
    case Some(k) => Err(ValueError(checks[k].name))
  }

  /** The check that fails first decides the error, whatever comes after it. */
  lemma FirstFailureDecides(checks: seq<Check>, k: nat)
    requires k < |checks| && !Passes(checks[k])
    requires forall j :: 0 <= j < k ==> Passes(checks[j])
    ensures RunChecks(checks) == Err(ValueError(checks[k].name))
  {
  }
}

/** The order argument `n` as Python sees it, and the integer test of
    `is_integer`: a value passes when its type is a subclass of `int`
    (which includes `bool`) or of `numpy.integer`. */
module Orders {
  import opened Wrappers
  import opened Errors

  datatype Order =
    | PyInt(i: int)
    | PyBool(b: bool)
    | NpInt(i: int)
    | PyFloat(f: real)          // a Python or numpy float, e.g. `1.0`
    | PyOther(typeName: string) // any other type, e.g. `str`

  predicate IsInteger(n: Order) {
    n.PyInt? || n.PyBool? || n.NpInt?
  }

  /** The integer an integer-typed `n` stands for (`True == 1`). */
  function IntValue(n: Order): int
    requires IsInteger(n)
  {
    match n
    case PyInt(i) => i
    case NpInt(i) => i
    case PyBool(b) => if b then 1 else 0
  }

  /** The two checks `Hermite_function`, `Hermite_functions` and the
      dispatcher make on `n`, in this order: the type test, then the sign
      test. (`Hermite_function_analytic` makes one range check instead.) */
  function CheckOrder(n: Order): (r: Result<nat, Error>)
    ensures r == Failure(NotAnInteger) <==> !IsInteger(n)
    ensures r == Failure(NegativeOrder) <==> IsInteger(n) && IntValue(n) < 0
    ensures r.Success? <==> IsInteger(n) && 0 <= IntValue(n)
    ensures r.Success? ==> r.value == IntValue(n)
  {
    if !IsInteger(n) then Failure(NotAnInteger)
    else if IntValue(n) < 0 then Failure(NegativeOrder)
    else Success(IntValue(n))
  }

  /** A float never passes, whatever its value: in particular a negative
      float is a type error, not a sign error. */
  lemma FloatIsTypeError(f: real)
    ensures CheckOrder(PyFloat(f)) == Failure(NotAnInteger)
    ensures CheckOrder(PyFloat(f)).error.Class() == TypeError
  {
  }
}

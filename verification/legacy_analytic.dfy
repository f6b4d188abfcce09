/** The older closed-form routine `Hermite_function_analytic(n, x)`. */
module LegacyAnalytic {
  import opened Wrappers
  import opened Errors
  import opened Orders
  import opened Numerics
  import opened Recurrence
  import opened ClosedForms
  import HermiteFunctions

  /** `Hermite_function_analytic(n, x)`: a type error for a non-integer
      `n`, one range error for any order outside 0..5, and otherwise
      exactly one of the six closed forms. */
  function HermiteFunctionAnalytic(t: Transcendentals, n: Order, x: real): (r: Result<real, Error>)
    requires Laws(t)
    ensures r == Failure(NotAnInteger) <==> !IsInteger(n)
    ensures r == Failure(AnalyticRange)
            <==> IsInteger(n) && (IntValue(n) < 0 || MaxClosedOrder < IntValue(n))
    ensures r.Success? <==> IsInteger(n) && 0 <= IntValue(n) <= MaxClosedOrder
    ensures r.Success? ==> r.value == Psi(t, IntValue(n), x)
  {
    if !IsInteger(n) then Failure(NotAnInteger)
    else if IntValue(n) < 0 || IntValue(n) > MaxClosedOrder then Failure(AnalyticRange)
    else
      ClosedFormIsPsi(t, IntValue(n), x);
      Success(ClosedForm(t, IntValue(n), x))
  }

  /** The older routine accepts exactly the orders the dispatcher accepts
      for the analytic method and rejects the others with the same
      exception class; the messages differ in every rejected case. */
  lemma {:induction false} AgreesWithDispatcher(t: Transcendentals, n: Order, x: real)
    requires Laws(t)
    ensures var r, v := HermiteFunctionAnalytic(t, n, x), HermiteFunctions.Validate("analytic", n);
      && (r.Success? <==> v.Success?)
      && (r.Failure? ==> r.error.Class() == v.error.Class())
      && (r.Failure? ==> r.error.LegacyMessage() != v.error.Message())
      && (v.Success? ==> r.value == HermiteFunctions.HAnalytic(t, v.value.1, x).value)
  {
    var v := HermiteFunctions.Validate("analytic", n);
    assert HermiteFunctions.ParseMethod("analytic") == Some(HermiteFunctions.Analytic);
    if v.Failure? {
      assert v.error != MethodNotRecognized;
    }
  }
}

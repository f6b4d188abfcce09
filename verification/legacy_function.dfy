/** The older single-order routine `Hermite_function(n, x)`: the order
    checks, then the recurrence keeping only the last two values. */
module LegacyFunction {
  import opened Wrappers
  import opened Errors
  import opened Orders
  import opened Recurrence
  import opened Numerics

  /** `Hermite_function(n, x)`: the two order checks, then `Rolling`. */
  method HermiteFunction(t: Transcendentals, n: Order, x: real) returns (r: Result<real, Error>)
    ensures r.Failure? <==> CheckOrder(n).Failure?
    ensures r.Failure? ==> r.error == CheckOrder(n).error
    ensures r.Success? ==> r.value == Psi(t, IntValue(n), x)
  {
    var checked := CheckOrder(n);
    if checked.Failure? {
      return Failure(checked.error);
    }
    var psi := Rolling(t, checked.value, x);
    return Success(psi);
  }

  /** The body of `Hermite_function` after the checks. The loop body is the
      recurrence `Step`, which the source writes inline. After the step for
      order m the variables `psi_0`, `psi_1`, `psi_2` hold psi_{m-1}, psi_m,
      psi_m. */
  method Rolling(t: Transcendentals, k: nat, x: real) returns (psi: real)
    ensures k == 0 ==> psi == Seed0(t, x)
    ensures k == 1 ==> psi == Seed1(t, x)
    ensures psi == Psi(t, k, x)
  {
    var psi0 := t.piMinusQuarter * Gauss(t, x);
    if k == 0 {
      return psi0;
    }
    var psi1 := t.sqrt(2.0) * t.piMinusQuarter * x * Gauss(t, x);
    if k == 1 {
      return psi1;
    }
    var psi2 := psi1;
    var m := 2;
    while m <= k
      invariant 2 <= m <= k + 1
      invariant psi0 == Psi(t, m - 2, x)
      invariant psi1 == Psi(t, m - 1, x)
      invariant psi2 == psi1
    {
      psi2 := Step(t, m, x, psi0, psi1);
      psi0 := psi1;
      psi1 := psi2;
      m := m + 1;
    }
    return psi2;
  }

  /** The errors of the older test suite, with the older wording: `-1` is
      a ValueError and `1.0` a TypeError. */
  lemma {:induction false} LegacyErrors()
    ensures CheckOrder(PyInt(-1)).error.Class() == ValueError
    ensures CheckOrder(PyInt(-1)).error.LegacyMessage() == "n must be non-negative"
    ensures CheckOrder(PyFloat(1.0)).error.Class() == TypeError
    ensures CheckOrder(PyFloat(1.0)).error.LegacyMessage() == "n must be an integer"
  {
  }
}

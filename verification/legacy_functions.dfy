/** The older all-orders routine `Hermite_functions(n, x, transform_axes)`:
    the order checks, the preallocated stack, the recurrence filling it,
    and the optional `np.moveaxis` on the result. */
module LegacyFunctions {
  import opened Wrappers
  import opened Errors
  import opened Orders
  import opened Numerics
  import opened Recurrence
  import opened Axes
  import opened HermiteFunctions

  /** The shape `Hermite_functions` returns, as written: the early returns
      for n = 0 and n = 1 come before the `transform_axes` step, so the
      axes are moved only when n >= 2. */
  function LegacyShape(n: nat, s: Shape, transform: AxisMove): (d: seq<nat>)
    requires 2 <= n ==> AxesFit(transform, OutputRank(true, s))
    ensures |d| == OutputRank(true, s)
    ensures n < 2 || transform.NoMove? ==>
      && d[0] == n + 1
      && (s.Dims? ==> d[1..] == s.dims)
      && (s.NoShape? ==> d[1..] == [1])
    ensures 2 <= n && transform.Move? ==>
      forall i :: 0 <= i < |d| ==> d[transform.destination[i]] == StackDims(n, s)[transform.source[i]]
  {
    if n < 2 then StackDims(n, s)
    else match transform
      case NoMove => StackDims(n, s)
      case Move(source, destination) => MoveAxes(StackDims(n, s), source, destination)
  }

  /** The body of `Hermite_functions` after the order checks: the zero
      array of n + 1 rows, the two seed rows, then the recurrence filling
      row m from rows m - 1 and m - 2. */
  method StackRows(t: Transcendentals, k: nat, x: real) returns (psi: seq<real>)
    ensures |psi| == k + 1
    ensures forall m :: 0 <= m <= k ==> psi[m] == Psi(t, m, x)
  {
    psi := seq(k + 1, _ => 0.0);
    psi := psi[0 := t.piMinusQuarter * Gauss(t, x)];
    if k == 0 {
      return;
    }
    psi := psi[1 := t.sqrt(2.0) * t.piMinusQuarter * x * Gauss(t, x)];
    if k == 1 {
      return;
    }
    var m := 2;
    while m <= k
      invariant 2 <= m <= k + 1
      invariant |psi| == k + 1
      invariant forall i :: 0 <= i < m ==> psi[i] == Psi(t, i, x)
    {
      var prev2, prev1 := psi[m - 2], psi[m - 1];
      var next := t.sqrt(2.0 / m as real) * x * prev1 - t.sqrt((m - 1) as real / m as real) * prev2;
      assert next == Step(t, m, x, prev2, prev1) by {
        StepUnfold(t, m, x, prev2, prev1);
      }
      psi := psi[m := next];
      m := m + 1;
    }
  }

  /** `Hermite_functions(n, x, transform_axes)`: the rows psi_0 .. psi_n
      and the shape of the returned array. A 0-d `x` passes the order
      checks and then fails at the first row assignment `psi[0, :]`. */
  method Stacked(t: Transcendentals, n: Order, x: real, s: Shape, transform: AxisMove)
    returns (r: Result<(seq<real>, seq<nat>), Error>)
    requires IsInteger(n) && 2 <= IntValue(n) && !TooFewAxes(s) ==> AxesFit(transform, OutputRank(true, s))
    ensures r.Failure? <==> CheckOrder(n).Failure? || TooFewAxes(s)
    ensures CheckOrder(n).Failure? ==> r == Failure(CheckOrder(n).error)
    ensures CheckOrder(n).Success? && TooFewAxes(s) ==> r == Failure(TooManyIndices)
    ensures r.Success? ==> r.value.0 == Table(t, IntValue(n), x)
    ensures r.Success? ==> r.value.1 == LegacyShape(IntValue(n), s, transform)
  {
    var checked := CheckOrder(n);
    if checked.Failure? {
      return Failure(checked.error);
    }
    var k := checked.value;
    var dims := StackDims(k, s);
    if |dims| < 2 {
      return Failure(TooManyIndices);
    }
    var psi := StackRows(t, k, x);
    assert psi == Table(t, k, x);
    if k < 2 {
      return Success((psi, dims));
    }
    if transform.Move? {
      return Success((psi, MoveAxes(dims, transform.source, transform.destination)));
    }
    return Success((psi, dims));
  }

  /** From order 2 on, the older routine gives the shape the dispatcher
      gives for all orders. */
  lemma {:induction false} LegacyShapeAgrees(n: nat, s: Shape, transform: AxisMove)
    requires 2 <= n && AxesFit(transform, OutputRank(true, s))
    ensures LegacyShape(n, s, transform) == ResultShape(true, n, s, transform)
  {
  }

  /** For n = 1 the axes are not moved: with `x` of shape (2, 3, 4) and the
      documented `([0, 1, 2, 3], [3, 0, 1, 2])`, the result has shape
      (2, 2, 3, 4) where moving the axes gives (2, 3, 4, 2). */
  lemma {:induction false} TransformSkippedBelowTwo()
    ensures AxesFit(Move([0, 1, 2, 3], [3, 0, 1, 2]), OutputRank(true, Dims([2, 3, 4])))
    ensures LegacyShape(1, Dims([2, 3, 4]), Move([0, 1, 2, 3], [3, 0, 1, 2])) == [2, 2, 3, 4]
    ensures ResultShape(true, 1, Dims([2, 3, 4]), Move([0, 1, 2, 3], [3, 0, 1, 2]))
            == [2, 3, 4, 2]
  {
    MoveAxesLegacyExample();
    assert StackDims(1, Dims([2, 3, 4])) == [2, 2, 3, 4];
    MoveAxesUnique([2, 2, 3, 4], [0, 1, 2, 3], [3, 0, 1, 2], [2, 3, 4, 2]);
  }

  /** The documented example: n = 10 and `x` of shape (2, 3, 4) give shape
      (11, 2, 3, 4), and (2, 3, 4, 11) with the axes moved. */
  lemma {:induction false} LegacyShapeExamples()
    ensures LegacyShape(10, Dims([2, 3, 4]), NoMove) == [11, 2, 3, 4]
    ensures AxesFit(Move([0, 1, 2, 3], [3, 0, 1, 2]), OutputRank(true, Dims([2, 3, 4])))
    ensures LegacyShape(10, Dims([2, 3, 4]), Move([0, 1, 2, 3], [3, 0, 1, 2])) == [2, 3, 4, 11]
  {
    MoveAxesLegacyExample();
    assert StackDims(10, Dims([2, 3, 4])) == [11, 2, 3, 4];
  }
}

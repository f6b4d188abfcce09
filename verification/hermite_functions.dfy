/** `hermite_functions(n, x, all_n, move_axes, method)`: argument
    validation, the three evaluation methods for one order or for all
    orders 0..n, and the shape of the returned array.

    `x` is modelled by one element value together with its shape: every
    numpy operation involved is elementwise, so each element of the result
    is the value computed here for the matching element of `x`. */
module HermiteFunctions {
  import opened Wrappers
  import opened Errors
  import opened Orders
  import opened Numerics
  import opened Recurrence
  import opened Axes
  import ClosedForms
  import DirectForm

  // ---------------------------------------------------------------------
  // Methods and validation

  datatype Method = Recursive | Analytic | Direct
  {
    /** The string the caller passes as `method`. */
    function Name(): string {
      match this
      case Recursive => "recursive"
      case Analytic => "analytic"
      case Direct => "direct"
    }
  }

  /** `method in ["recursive", "analytic", "direct"]`, resolved to the
      method it names. */
  function ParseMethod(name: string): (r: Option<Method>)
    ensures r.Some? ==> r.value.Name() == name
    ensures r.None? ==> forall m: Method :: m.Name() != name
  {
    if name == "recursive" then Some(Recursive)
    else if name == "analytic" then Some(Analytic)
    else if name == "direct" then Some(Direct)
    else None
  }

  /** The four checks of `hermite_functions`, in their order: the method
      name, the type of `n`, its sign, and the analytic limit. Each error
      is reported exactly when its check is the first one to fail. */
  function Validate(name: string, n: Order): (r: Result<(Method, nat), Error>)
    ensures r == Failure(MethodNotRecognized) <==> ParseMethod(name).None?
    ensures r == Failure(NotAnInteger) <==> ParseMethod(name).Some? && !IsInteger(n)
    ensures r == Failure(NegativeOrder)
            <==> ParseMethod(name).Some? && IsInteger(n) && IntValue(n) < 0
    ensures r == Failure(AnalyticLimitExceeded)
            <==> ParseMethod(name) == Some(Analytic) && IsInteger(n)
                 && ClosedForms.MaxClosedOrder < IntValue(n)
    ensures r.Success? <==> ParseMethod(name).Some? && IsInteger(n) && 0 <= IntValue(n)
                            && (ParseMethod(name) == Some(Analytic)
                                ==> IntValue(n) <= ClosedForms.MaxClosedOrder)
    ensures r.Success? ==> r.value == (ParseMethod(name).value, IntValue(n))
  {
    match ParseMethod(name)
    case None => Failure(MethodNotRecognized)
    case Some(m) =>
      match CheckOrder(n)
      case Failure(e) => Failure(e)
      case Success(k) =>
        if m == Analytic && k > ClosedForms.MaxClosedOrder then Failure(AnalyticLimitExceeded)
        else Success((m, k))
  }

  /** The error scenarios of the test suite, each with the exception class
      the caller sees. */
  lemma {:induction false} ValidationScenarios()
    ensures Validate("foo", PyFloat(1.5)) == Failure(MethodNotRecognized)
    ensures Validate("foo", PyInt(-1)) == Failure(MethodNotRecognized)
    ensures Validate("recursive", PyFloat(1.0)) == Failure(NotAnInteger)
    ensures Validate("recursive", PyFloat(-1.0)).error.Class() == TypeError
    ensures Validate("analytic", PyInt(-1)) == Failure(NegativeOrder)
    ensures Validate("analytic", PyInt(6)) == Failure(AnalyticLimitExceeded)
    ensures Validate("analytic", NpInt(6)).error.Class() == ValueError
    ensures Validate("direct", PyInt(6)) == Success((Direct, 6))
  {
    assert ParseMethod("foo").None? by {
      assert "foo" != Recursive.Name() && "foo" != Analytic.Name() && "foo" != Direct.Name();
    }
  }

  // ---------------------------------------------------------------------
  // Values of a single order

  /** `_H_analytic(n, x)`: the closed form for 0 <= n <= 5, an error for
      any other order. */
  function HAnalytic(t: Transcendentals, n: int, x: real): (r: Result<real, Error>)
    requires Laws(t)
    ensures r.Success? <==> 0 <= n <= ClosedForms.MaxClosedOrder
    ensures r.Failure? ==> r.error == NoAnalyticExpression
    ensures r.Success? ==> r.value == Psi(t, n, x)
  {
    if 0 <= n <= ClosedForms.MaxClosedOrder then
      ClosedForms.ClosedFormIsPsi(t, n, x);
      Success(ClosedForms.ClosedForm(t, n, x))
    else
      Failure(NoAnalyticExpression)
  }

  /** `_H_direct(n, x)`. */
  function HDirect(t: Transcendentals, n: nat, x: real): (r: real)
    requires Laws(t)
    ensures n == 0 ==> r == Seed0(t, x)
    ensures n == 1 ==> r == Seed1(t, x)
    ensures r == Psi(t, n, x)
  {
    DirectForm.DirectIsPsi(t, n, x);
    DirectForm.Direct(t, n, x)
  }

  /** `_Hermite_single_n(n, x, method)`. The recursive method keeps only
      the last two values; it returns the seed itself for n = 0 and 1. */
  method SingleN(t: Transcendentals, how: Method, n: nat, x: real) returns (r: Result<real, Error>)
    requires Laws(t)
    ensures n == 0 ==> r == Success(Seed0(t, x))
    ensures n == 1 ==> r == Success(Seed1(t, x))
    ensures r.Failure? <==> how == Analytic && ClosedForms.MaxClosedOrder < n
    ensures r.Failure? ==> r.error == NoAnalyticExpression
    ensures r.Success? ==> r.value == Psi(t, n, x)
  {
    if how == Analytic {
      return HAnalytic(t, n, x);
    }
    if how == Direct {
      return Success(HDirect(t, n, x));
    }
    var psiMinus2 := HAnalytic(t, 0, x).value;
    if n == 0 {
      return Success(psiMinus2);
    }
    var psiMinus1 := HAnalytic(t, 1, x).value;
    if n == 1 {
      return Success(psiMinus1);
    }
    var psi := psiMinus1;
    var m := 2;
    while m <= n
      invariant 2 <= m <= n + 1
      invariant psiMinus2 == Psi(t, m - 2, x)
      invariant psiMinus1 == Psi(t, m - 1, x)
      invariant psi == psiMinus1
    {
      psi := Step(t, m, x, psiMinus2, psiMinus1);
      psiMinus2 := psiMinus1;
      psiMinus1 := psi;
      m := m + 1;
    }
    return Success(psi);
  }

  // ---------------------------------------------------------------------
  // All orders 0..n

  /** `_Hermite_all_n(n, x, method)`: the rows psi_0(x) .. psi_n(x) of the
      preallocated array. The analytic method fails when its loop reaches
      order 6; the recursive method fills row m from rows m-1 and m-2.
      There is no shape here: for a 0-d `x` the row assignment raises an
      IndexError, which `Evaluate` returns before calling this. */
  method AllN(t: Transcendentals, how: Method, n: nat, x: real) returns (r: Result<seq<real>, Error>)
    requires Laws(t)
    ensures r.Failure? <==> how == Analytic && ClosedForms.MaxClosedOrder < n
    ensures r.Failure? ==> r.error == NoAnalyticExpression
    ensures r.Success? ==> |r.value| == n + 1
    ensures r.Success? ==> forall m :: 0 <= m <= n ==> r.value[m] == Psi(t, m, x)
  {
    var rows := seq(n + 1, _ => 0.0);
    if how == Analytic {
      var m := 0;
      while m <= n
        invariant 0 <= m <= n + 1 && m <= ClosedForms.MaxClosedOrder + 1
        invariant |rows| == n + 1
        invariant forall i :: 0 <= i < m ==> rows[i] == Psi(t, i, x)
      {
        var v := HAnalytic(t, m, x);
        if v.Failure? {
          return Failure(v.error);
        }
        rows := rows[m := v.value];
        m := m + 1;
      }
      return Success(rows);
    }
    if how == Direct {
      var m := 0;
      while m <= n
        invariant 0 <= m <= n + 1
        invariant |rows| == n + 1
        invariant forall i :: 0 <= i < m ==> rows[i] == Psi(t, i, x)
      {
        rows := rows[m := HDirect(t, m, x)];
        m := m + 1;
      }
      return Success(rows);
    }
    rows := rows[0 := HAnalytic(t, 0, x).value];
    if n == 0 {
      return Success(rows);
    }
    rows := rows[1 := HAnalytic(t, 1, x).value];
    if n == 1 {
      return Success(rows);
    }
    var m := 2;
    while m <= n
      invariant 2 <= m <= n + 1
      invariant |rows| == n + 1
      invariant forall i :: 0 <= i < m ==> rows[i] == Psi(t, i, x)
    {
      rows := rows[m := Step(t, m, x, rows[m - 2], rows[m - 1])];
      m := m + 1;
    }
    return Success(rows);
  }

  // ---------------------------------------------------------------------
  // Shapes

  /** The shape of `x`: `NoShape` for a Python number, which has no
      `shape` attribute, otherwise the dimensions of the array (empty for
      a 0-d array or numpy scalar). */
  datatype Shape = NoShape | Dims(dims: seq<nat>)

  /** `move_axes`: `NoMove` for an empty (false) value, otherwise the pair
      `(source, destination)` handed to `np.moveaxis`. */
  datatype AxisMove = NoMove | Move(source: seq<nat>, destination: seq<nat>)

  /** The dimensions of the preallocated all-orders array: `(n + 1,) +
      x.shape`, or `(n + 1, 1)` when `x` has no shape. The array has a
      second axis for the row assignments `psi_n[m, :]` unless `x` is 0-d. */
  function StackDims(n: nat, s: Shape): (d: seq<nat>)
    ensures 1 <= |d| && d[0] == n + 1
    ensures s.Dims? ==> d[1..] == s.dims
    ensures s.NoShape? ==> d[1..] == [1]
    ensures |d| == 1 <==> s == Dims([])
  {
    match s
    case NoShape => [n + 1, 1]
    case Dims(dims) => [n + 1] + dims
  }

  /** The all-orders array of a 0-d `x` has one axis only, so indexing it
      with `psi_n[m, :]` raises numpy's IndexError. */
  predicate TooFewAxes(s: Shape) {
    s == Dims([])
  }

  /** The number of axes of the array `np.moveaxis` is applied to. A
      single order computed from a Python number is a numpy scalar, whose
      shape is `()`. */
  function OutputRank(allN: bool, s: Shape): nat {
    if allN then (if s.NoShape? then 2 else 1 + |s.dims|)
    else (if s.NoShape? then 0 else |s.dims|)
  }

  /** The axis lists of `move` are full permutations of the output's
      axes, the case of `np.moveaxis` this model covers. */
  predicate AxesFit(move: AxisMove, rank: nat) {
    move.Move? ==> Permutation(move.source, rank) && Permutation(move.destination, rank)
  }

  /** The shape of the result before the axes are moved. */
  function UnmovedShape(allN: bool, n: nat, s: Shape): (d: seq<nat>)
    ensures |d| == OutputRank(allN, s)
    ensures allN ==> d[0] == n + 1
    ensures allN && s.Dims? ==> d[1..] == s.dims
    ensures allN && s.NoShape? ==> d[1..] == [1]
    ensures !allN && s.Dims? ==> d == s.dims
    ensures !allN && s.NoShape? ==> d == []
  {
    if allN then StackDims(n, s)
    else if s.NoShape? then []
    else s.dims
  }

  /** The shape `hermite_functions` returns: the unmoved shape, with its
      axes moved when `move_axes` is non-empty. */
  function ResultShape(allN: bool, n: nat, s: Shape, move: AxisMove): (d: seq<nat>)
    requires AxesFit(move, OutputRank(allN, s))
    ensures move.NoMove? ==> d == UnmovedShape(allN, n, s)
    ensures |d| == OutputRank(allN, s)
    ensures move.Move? ==>
      forall i :: 0 <= i < |move.source| ==>
        d[move.destination[i]] == UnmovedShape(allN, n, s)[move.source[i]]
  {
    var u := UnmovedShape(allN, n, s);
    match move
    case NoMove => u
    case Move(source, destination) => MoveAxes(u, source, destination)
  }

  /** The axis of the all-orders result that indexes the order m. */
  function OrderAxis(s: Shape, move: AxisMove): (j: nat)
    requires AxesFit(move, OutputRank(true, s))
    ensures j < OutputRank(true, s)
    ensures forall n: nat :: ResultShape(true, n, s, move)[j] == n + 1
  {
    match move
    case NoMove => 0
    case Move(source, destination) =>
      MovedAxis(OutputRank(true, s), source, destination, 0)
  }

  /** The examples of the doc-comment, for `x` of shape (2, 5, 4) and
      n = 5. */
  lemma {:induction false} ShapeExamples()
    ensures ResultShape(false, 5, Dims([2, 5, 4]), NoMove) == [2, 5, 4]
    ensures ResultShape(true, 5, Dims([2, 5, 4]), NoMove) == [6, 2, 5, 4]
    ensures AxesFit(Move([0, 1, 2, 3], [1, 3, 2, 0]), OutputRank(true, Dims([2, 5, 4])))
    ensures ResultShape(true, 5, Dims([2, 5, 4]), Move([0, 1, 2, 3], [1, 3, 2, 0]))
            == [4, 6, 5, 2]
  {
    MoveAxesExample();
    assert StackDims(5, Dims([2, 5, 4])) == [6, 2, 5, 4];
  }

  // ---------------------------------------------------------------------
  // The entry point

  /** What `hermite_functions` returns, element by element: the computed
      values (one for a single order, the n + 1 rows for all orders), the
      shape of the array, and for all orders the axis that indexes m. */
  datatype Output = Output(values: seq<real>, shape: seq<nat>, orderAxis: Option<nat>)

  /** `hermite_functions(n, x, all_n, move_axes, method)`. */
  method Evaluate(t: Transcendentals, n: Order, x: real, s: Shape, allN: bool,
                  move: AxisMove, name: string) returns (r: Result<Output, Error>)
    requires Laws(t)
    requires Validate(name, n).Success? && !(allN && TooFewAxes(s)) ==>
      AxesFit(move, OutputRank(allN, s))
    ensures r.Failure? <==> Validate(name, n).Failure? || (allN && TooFewAxes(s))
    ensures Validate(name, n).Failure? ==> r == Failure(Validate(name, n).error)
    ensures Validate(name, n).Success? && allN && TooFewAxes(s) ==> r == Failure(TooManyIndices)
    ensures r.Success? ==> Validate(name, n).Success? && !(allN && TooFewAxes(s)) && var k := IntValue(n);
      && r.value.shape == ResultShape(allN, k, s, move)
      && (!allN ==> r.value.values == [Psi(t, k, x)] && r.value.orderAxis == None)
      && (allN ==> r.value.values == Table(t, k, x)
                   && r.value.orderAxis == Some(OrderAxis(s, move))
                   && r.value.shape[OrderAxis(s, move)] == k + 1)
  {
    var v := Validate(name, n);
    if v.Failure? {
      return Failure(v.error);
    }
    var (how, k) := v.value;
    if allN {
      if |StackDims(k, s)| < 2 {
        return Failure(TooManyIndices);
      }
      var shape := ResultShape(allN, k, s, move);
      var rows := AllN(t, how, k, x);
      assert rows.value == Table(t, k, x);
      return Success(Output(rows.value, shape, Some(OrderAxis(s, move))));
    } else {
      var shape := ResultShape(allN, k, s, move);
      var value := SingleN(t, how, k, x);
      return Success(Output([value.value], shape, None));
    }
  }

  /** The messages the test suite matches: "n must be an integer",
      "n must be non-negative" and "Method not recognized.". */
  lemma {:induction false} ValidationMessages()
    ensures Begins(Validate("recursive", PyFloat(1.0)).error.Message(), "n must be an integer")
    ensures Begins(Validate("recursive", PyInt(-1)).error.Message(), "n must be non-negative")
    ensures Begins(Validate("incorrect method", PyInt(0)).error.Message(), "Method not recognized.")
  {
    assert ParseMethod("incorrect method").None? by {
      assert "incorrect method" != Recursive.Name();
      assert "incorrect method" != Analytic.Name();
      assert "incorrect method" != Direct.Name();
    }
  }
}

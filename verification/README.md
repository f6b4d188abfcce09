# Hermite functions in Dafny

A model of the `hermite_functions` package, which evaluates the
harmonic-oscillator eigenfunctions

    psi_n(x) = (2^n n!)^(-1/2) pi^(-1/4) exp(-x^2/2) H_n(x)

for one order n or for all orders 0..n. The package offers three methods:
- a three-term recurrence,
  `psi_m = sqrt(2/m) x psi_{m-1} - sqrt((m-1)/m) psi_{m-2}`, started from the
  seeds psi_0 and psi_1;
- closed forms for n <= 5;
- direct evaluation through the Hermite polynomial.

The model covers the current entry point `hermite_functions(n, x, all_n,
move_axes, method)` and the three older routines: `Hermite_function`,
`Hermite_functions` and `Hermite_function_analytic`.

Modules (one per file):

| module | contents |
|---|---|
| `Wrappers`, `Errors` | `Option`/`Result` and the exceptions raised (including numpy's IndexError for a 0-d `x` with all orders), each with its Python class and message |
| `Orders` | the argument `n` as a Python value: int, bool, numpy integer, float, anything else. Also the `is_integer` test and the type-then-sign checks of `Hermite_function`, `Hermite_functions` and the dispatcher (`Hermite_function_analytic` makes one range check instead) |
| `Numerics` | `sqrt`, `exp` and the powers of pi as parameters (`Transcendentals`), with the laws the proofs use (`Laws`) |
| `Recurrence` | the reference definition `Psi` (seeds plus recurrence), the stack `Table`, and the behaviour at the origin |
| `ClosedForms` | the six closed forms and the proof that they are `Psi` |
| `DirectForm` | the direct formula with the Hermite polynomial and the proof that it is `Psi` |
| `Axes` | the shape permutation `np.moveaxis` performs for full axis permutations |
| `HermiteFunctions` | `hermite_functions`: validation, `_Hermite_single_n`, `_Hermite_all_n`, `_H_analytic`, `_H_direct` and the shape of the result |
| `LegacyFunction`, `LegacyFunctions`, `LegacyAnalytic` | the three older routines |

An array argument `x` is modelled as one element value (`x: real`) together
with its shape (`Shape`). Every numpy operation involved is elementwise, so
each element of a result is the value computed for the matching element of
`x`.

## Model

| member | source | states |
|---|---|---|
| Orders.CheckOrder | Hermite_functions/Hermite_function.py:26-29 | A non-integer `n` gives the type error and only then is the sign looked at. A negative integer gives the value error, and every other `n` is accepted with its integer value (`True` counts as 1) |
| Orders.IsInteger | Hermite_functions/is_integer.py:17 | Definition, no contract: `int` (so also `bool`) and numpy integers pass, floats and every other type fail |
| Orders.FloatIsTypeError | Hermite_functions/is_integer.py:17 | A float is never an integer order, whatever its value, so even `-1.0` raises `TypeError` and not the sign error |
| HermiteFunctions.ParseMethod | hermite_functions/hermite_functions.py:49-50 | Exactly the three names "recursive", "analytic" and "direct" are recognised, each naming its own method |
| HermiteFunctions.Validate | hermite_functions/hermite_functions.py:49-56 | The four checks in priority order, each as an if-and-only-if. An unknown method is reported whatever `n` is. A non-integer `n` is reported for any known method. A negative order comes next, and the analytic limit n > 5 last. Validation succeeds exactly when none applies |
| HermiteFunctions.ValidationScenarios | test/test_Hermite_functions.py:7-22 | The test suite's error cases give the expected error and exception class: `1.0` is a `TypeError`, negative n and analytic n = 6 are `ValueError`, and an unknown method wins over a bad `n` |
| HermiteFunctions.ValidationMessages | test/test_Hermite_functions.py:7-22 | The messages of the non-integer, negative and unknown-method errors begin with the patterns the tests match |
| HermiteFunctions.HAnalytic | hermite_functions/hermite_functions.py:137-170 | For 0 <= n <= 5 the closed form is psi_n(x) as the recurrence defines it. Every other order raises the "no analytic expression" error |
| HermiteFunctions.HDirect | hermite_functions/hermite_functions.py:173-183 | The direct formula gives psi_n(x) at every order, and so the two seeds at n = 0 and n = 1 |
| HermiteFunctions.SingleN | hermite_functions/hermite_functions.py:69-93 | Each method returns psi_n(x). The rolling loop holds psi_{m-2} and psi_{m-1} at each step, and n = 0 and n = 1 return the seeds. Only the analytic method with n > 5 fails |
| HermiteFunctions.AllN | hermite_functions/hermite_functions.py:96-127 | For every method the result has n + 1 rows and row m is psi_m(x), the value `SingleN` returns for order m. For an `x` that is not 0-d, only the analytic method with n > 5 fails; `Evaluate` returns the IndexError of a 0-d `x` before this point |
| HermiteFunctions.StackDims | hermite_functions/hermite_functions.py:101-104 | The all-orders array is `(n + 1,) + x.shape`, or `(n + 1, 1)` when `x` has no shape. It has a single axis exactly when `x` is 0-d |
| HermiteFunctions.UnmovedShape | hermite_functions/hermite_functions.py:58-61 | A single order keeps the shape of `x`, and a Python number gives the numpy scalar shape `()`. All orders give `(n + 1,) + x.shape`, or `(n + 1, 1)` for a Python number |
| HermiteFunctions.ResultShape | hermite_functions/hermite_functions.py:58-64 | An empty `move_axes` leaves the shape unchanged. A non-empty one sends the length of each source axis to its destination axis, keeping the rank |
| HermiteFunctions.OrderAxis | hermite_functions/hermite_functions.py:63-64 | After the axes move, the order index sits on one fixed axis of length n + 1, for every n |
| HermiteFunctions.ShapeExamples | hermite_functions/hermite_functions.py:32-45 | The documented shapes: (2, 5, 4) stays (2, 5, 4) for one order. It becomes (6, 2, 5, 4) for all orders up to 5, and (4, 6, 5, 2) after `([0, 1, 2, 3], [1, 3, 2, 0])` |
| HermiteFunctions.Evaluate | hermite_functions/hermite_functions.py:5-66 | A validation failure is returned with its error. After validation, all orders of a 0-d `x` fail with numpy's IndexError from `psi_n[m, :]`. There are no other failures. Otherwise the result is psi_n(x) or the stack psi_0..psi_n, with the shape given by `ResultShape` and, for all orders, the axis that indexes m |
| Recurrence.Step | hermite_functions/hermite_functions.py:130-134 | Definition, no contract: `sqrt(2/m) x psi_{m-1} - sqrt((m-1)/m) psi_{m-2}` with true division. Its properties are the lemmas below and the loops built on it |
| Recurrence.PsiIsSeedTimesRatio | hermite_functions/hermite_functions.py:130-145 | Every psi_n is the ground state psi_0 times a factor obeying the same recurrence from the seeds 1 and sqrt(2) x |
| Recurrence.TablePrefix | Hermite_functions/Hermite_functions.py:56-67 | The stack for order n is the first n + 1 rows of the stack for any larger order |
| Recurrence.StepAtZero | hermite_functions/hermite_functions.py:134 | At x = 0 the recurrence reduces to psi_m(0) = -sqrt((m-1)/m) psi_{m-2}(0) |
| Recurrence.OddVanishesAtZero | hermite_functions/hermite_functions.py:130-145 | Every odd order vanishes at the origin |
| Recurrence.SignAtZeroStep | hermite_functions/hermite_functions.py:130-134 | At the origin psi_{2k} has the sign opposite to psi_{2k-2} |
| Recurrence.EvenSignAtZero | hermite_functions/hermite_functions.py:130-143 | Even orders alternate in sign at the origin: psi_{4j}(0) > 0 and psi_{4j+2}(0) < 0 |
| Recurrence.GroundStateAtZero | hermite_functions/hermite_functions.py:142-143 | psi_0(0) is exactly pi^(-1/4) |
| ClosedForms.ClosedForm | hermite_functions/hermite_functions.py:142-169 | Definition, no contract: the branch of `_H_analytic` (and of Hermite_functions/Hermite_function_analytic.py:24-35) for order n, normalisation times integer polynomial times Gaussian. `ClosedFormIsPsi` states what it computes |
| ClosedForms.ClosedFormIsPsi | hermite_functions/hermite_functions.py:137-169 | Each of the six closed forms equals the value the recurrence produces from the seeds, exactly over the reals |
| ClosedForms.StepOfClosedForms | hermite_functions/hermite_functions.py:143-169 | One recurrence step applied to the closed forms of orders m-2 and m-1 gives the closed form of order m, for m = 2..5 |
| ClosedForms.ClosedRatioIsRatio | hermite_functions/hermite_functions.py:146-169 | Each closed form divided by psi_0 (a constant times the integer polynomial) is the recurrence's ratio |
| ClosedForms.ClosedRatioStep | hermite_functions/hermite_functions.py:146-169 | The constant-times-polynomial factors of consecutive closed forms obey the recurrence |
| ClosedForms.ClosedFormFactor | hermite_functions/hermite_functions.py:142-169 | Every closed form factors as psi_0 times its constant and its polynomial |
| ClosedForms.NormalisationSplit | hermite_functions/hermite_functions.py:146-169 | The constant `(c pi^(1/4))^(-1)` of orders 2..5 is pi^(-1/4) / c |
| ClosedForms.NormalisationPositive | hermite_functions/hermite_functions.py:142-169 | Every normalisation constant is positive |
| ClosedForms.PolynomialStep | hermite_functions/hermite_functions.py:146-169 | The integer polynomials of consecutive closed forms are related by the Hermite-type recurrence with leading factor 2x or x |
| ClosedForms.ClosedFormAtZero | Hermite_functions/Hermite_function_analytic.py:24-35 | At the origin the odd closed forms are 0. psi_0 and psi_4 are positive and psi_2 is negative, read off the polynomial values 1, 3 and -1 |
| DirectForm.Direct | hermite_functions/hermite_functions.py:177-183 | Definition, no contract: the body of `_H_direct` with exact reals. `DirectIsPsi` states what it computes |
| DirectForm.DirectIsPsi | hermite_functions/hermite_functions.py:173-183 | The normaliser of the direct formula is positive, and the direct formula equals the recurrence's psi_n(x) at every order |
| DirectForm.RatioTimesRoot | hermite_functions/hermite_functions.py:177-183 | The Hermite polynomial H_n(x) is the recurrence's ratio psi_n / psi_0 times sqrt(2^n n!) |
| DirectForm.ScaleIsPow2Factorial | hermite_functions/hermite_functions.py:179 | The normaliser built up one factor 2m at a time is `2 ** n * factorial(n)` |
| DirectForm.DirectFromRatio | hermite_functions/hermite_functions.py:177-183 | Dividing the Hermite value by its normaliser leaves psi_0 times the recurrence's ratio |
| Axes.MoveAxes | hermite_functions/hermite_functions.py:63-64 | Moving axes keeps the rank and puts the length of source axis `source[i]` at axis `destination[i]` |
| Axes.MoveAxesUnique | hermite_functions/hermite_functions.py:63-64 | Any shape that has the source lengths at their destinations is the moved shape |
| Axes.MoveAxesInverse | hermite_functions/hermite_functions.py:63-64 | Moving the axes back with the lists swapped restores the original shape |
| Axes.MoveAxesIdentity | hermite_functions/hermite_functions.py:63-64 | Moving every axis to itself changes nothing |
| Axes.MovedAxis | hermite_functions/hermite_functions.py:63-64 | Each axis has one destination, where its length ends up for every shape |
| Axes.MoveAxesExample | hermite_functions/hermite_functions.py:42-45 | `([0, 1, 2, 3], [1, 3, 2, 0])` maps (6, 2, 5, 4) to (4, 6, 5, 2) |
| Axes.MoveAxesLegacyExample | Hermite_functions/Hermite_functions.py:29-32 | `([0, 1, 2, 3], [3, 0, 1, 2])` maps (11, 2, 3, 4) to (2, 3, 4, 11) |
| LegacyFunction.HermiteFunction | Hermite_functions/Hermite_function.py:26-44 | The type check comes before the sign check, with the same errors as `CheckOrder`. An accepted order returns psi_n(x), the value in row n of the stacked routine's result |
| LegacyFunction.LegacyErrors | test/test_Hermite_function.py:10-14 | `-1` is a ValueError and `1.0` a TypeError, with the older messages without the full stop |
| LegacyFunction.Rolling | Hermite_functions/Hermite_function.py:31-44 | Keeping only two prior values returns psi_n(x). n = 0 and n = 1 return the seeds, and after step m `psi_0` and `psi_1 == psi_2` hold psi_{m-1} and psi_m |
| LegacyFunctions.StackRows | Hermite_functions/Hermite_functions.py:56-67 | The array has n + 1 rows: row 0 is psi_0, row 1 is psi_1, and each later row is the recurrence on the two rows before it, so row m is psi_m(x) |
| LegacyFunctions.Stacked | Hermite_functions/Hermite_functions.py:46-72 | The order checks fail as `CheckOrder` does. After them, a 0-d `x` fails with numpy's IndexError at `psi[0, :]`. There are no other failures. Otherwise the result is the stack psi_0..psi_n with the shape of `LegacyShape` |
| LegacyFunctions.LegacyShape | Hermite_functions/Hermite_functions.py:51-72 | For n < 2, or without `transform_axes`, the shape is `(n + 1,) + x.shape`, or `(n + 1, 1)` when `x` has no shape. For n >= 2 with `transform_axes`, each source axis length of that array lands at its destination |
| LegacyFunctions.LegacyShapeAgrees | Hermite_functions/Hermite_functions.py:64-72 | From order 2 on, the older routine returns the shape the current entry point returns for all orders |
| LegacyFunctions.TransformSkippedBelowTwo | Hermite_functions/Hermite_functions.py:57-72 | For n = 1, `x` of shape (2, 3, 4) and `([0, 1, 2, 3], [3, 0, 1, 2])`, the older routine returns (2, 2, 3, 4) where moving the axes gives (2, 3, 4, 2) |
| LegacyFunctions.LegacyShapeExamples | Hermite_functions/Hermite_functions.py:23-32 | The documented shapes: (11, 2, 3, 4) without `transform_axes` and (2, 3, 4, 11) with `([0, 1, 2, 3], [3, 0, 1, 2])` |
| LegacyAnalytic.HermiteFunctionAnalytic | Hermite_functions/Hermite_function_analytic.py:19-35 | A non-integer `n` is a `TypeError`. Any integer outside 0..5 is the one "between 0 and 5" error. Every order in 0..5 has a value, and that value is psi_n(x) |
| LegacyAnalytic.AgreesWithDispatcher | Hermite_functions/Hermite_function_analytic.py:19-22 | The older routine accepts exactly the orders the current analytic method accepts and gives the same value. It rejects the others with the same exception class, and the message differs in every rejected case |

## Left out

- Floating point: every value is an exact real. Rounding, the tolerances of the tests, and how far the methods drift apart at large n are not modelled.
- `sqrt`, `exp`, `pi ** (1/4)` and `pi ** (-1/4)` are parameters (`Numerics.Transcendentals`). The only facts assumed about them are `Numerics.Laws`: the square-root law, positivity of `exp`, `exp(0) = 1`, `pi ** (1/4) > 0`, and that the two pi powers are reciprocal.
- SciPy's `eval_hermite` and `factorial` are not part of this model. They are taken to be the mathematical Hermite polynomial and factorial (`DirectForm.Hermite`, `DirectForm.Factorial`). The overflow of `factorial` for large n is a floating-point matter and is left out.
- numpy broadcasting and array storage: an array is one element value plus its shape.
- Axes.MoveAxes: only the case where both axis lists are full permutations of the axes is modelled. Negative axes, partial lists and numpy's errors for repeated or out-of-range axes are not.
- HermiteFunctions.Evaluate: when the order is valid and the array has room for the order axis, requires the `move_axes` lists to be full permutations of the output's axes (`AxesFit`). Every other list is excluded there: those numpy rejects, and also partial lists such as `([0], [3])`, which numpy accepts and which this model does not cover. On the error paths, which return before `np.moveaxis`, any lists are allowed.
- LegacyFunctions.Stacked: requires the same of `transform_axes` only when the order checks pass, n >= 2 and `x` is not a 0-d array, the only case in which the routine uses it. A Python number counts here: its stack has the two axes (n + 1, 1), so `Hermite_functions(2, 0.5, ([0], [1]))` is excluded although the routine moves the axes to (1, 3).
- DirectForm.Direct: requires the square root of the normaliser to be positive so that the division is defined for arbitrary parameters. `DirectIsPsi` proves this holds under `Laws`.
- Python's class hierarchy is folded into the `Orders.Order` variant. `bool` counts as an integer (`True` is 1), and floats and every other type do not.
- The messages are recorded in `Errors` (`Message`, `LegacyMessage`). Only `ValidationMessages`, `LegacyErrors` and `AgreesWithDispatcher` (which states that the two analytic routines never give the same message) state them; the other contracts state the error kind and its exception class. For the IndexError only the start of numpy's message is recorded.
- Hermite_functions/Hermite_function_direct.py is not part of this model. It is the older twin of `_H_direct`, with the same two order checks as `CheckOrder`.
- Default arguments are not modelled: every call passes `all_n`, `move_axes` and `method` (default `True`, `()`, `"recursive"`) and `n`, `x` (default `0`, `0`) explicitly. `HermiteFunctions.ValidationScenarios` writes the tests' call without a method as `"recursive"`.
- The `__main__` and doctest blocks (random input and printing), setup.py and Hermite_functions/__init__.py are packaging, not logic.
- A single order computed from a plain Python number is a numpy scalar, so the result shape is `()`. No length-1 placeholder axis is added; only the all-orders array gets an extra axis of length 1.
- HermiteFunctions.Evaluate: a numpy integer order (`Orders.NpInt`) is taken as an unbounded integer. numpy's fixed-width wrap-around is not modelled. For an int64 `n >= 63`, the direct method's `2 ** n` wraps (the result is then nan or inf, not psi_n). For narrow dtypes, `n + 1` wraps: `np.zeros` then raises, or the single-order loop is skipped and `psi_m` is unbound.
- DirectForm.Pow2: Python's `2 ** n` as an exact integer; the int64 wrap of a numpy `n` is not modelled.
- LegacyFunctions.Stacked: likewise takes a numpy integer `n` as unbounded; with a narrow dtype, `n + 1` wraps.
- LegacyFunction.HermiteFunction: likewise; with a narrow dtype, `range(2, n + 1)` can be empty and `psi_2` unbound.

## Findings

| source | as written | input that shows it | evidently intended | confidence | as-written member | corrected member |
|---|---|---|---|---|---|---|
| Hermite_functions/Hermite_functions.py:57-72 | The early returns for n = 0 and n = 1 come before the `transform_axes` step, so the axes are never moved for those orders | n = 1, `x` of shape (2, 3, 4), `transform_axes = ([0, 1, 2, 3], [3, 0, 1, 2])`: the result has shape (2, 2, 3, 4) instead of (2, 3, 4, 2) | The docstring promises the axes are moved whenever `transform_axes` is given, and the current `hermite_functions` moves them at every order | high; not executed | LegacyFunctions.TransformSkippedBelowTwo | HermiteFunctions.ResultShape |

/** The reference definition of the Hermite functions used throughout the
    model: the seeds psi_0 and psi_1 and the three-term recurrence
      psi_m = sqrt(2/m) * x * psi_{m-1} - sqrt((m-1)/m) * psi_{m-2}. */
module Recurrence {
  import opened Numerics

  /** psi_0(x) = pi ** (-1/4) * exp(-(x ** 2) / 2) */
  function Seed0(t: Transcendentals, x: real): real {
    t.piMinusQuarter * Gauss(t, x)
  }

  /** psi_1(x) = sqrt(2) * pi ** (-1/4) * x * exp(-(x ** 2) / 2) */
  function Seed1(t: Transcendentals, x: real): real {
    t.sqrt(2.0) * t.piMinusQuarter * x * Gauss(t, x)
  }

  /** One step of the recurrence (`_H_recursive`). Python's `2 / m` and
      `(m - 1) / m` are true divisions, hence `m >= 1`. */
  function Step(t: Transcendentals, m: nat, x: real, prev2: real, prev1: real): real
    requires 1 <= m
  {
    t.sqrt(2.0 / m as real) * x * prev1 - t.sqrt((m - 1) as real / m as real) * prev2
  }

  /** `Step` spelled out, for callers that write the recurrence inline:
      as a lemma it keeps the unfolding out of the caller's proof. */
  lemma {:induction false} StepUnfold(t: Transcendentals, m: nat, x: real, prev2: real, prev1: real)
    requires 1 <= m
    ensures Step(t, m, x, prev2, prev1)
         == t.sqrt(2.0 / m as real) * x * prev1 - t.sqrt((m - 1) as real / m as real) * prev2
  {
  }

  /** psi_m(x), defined from the seeds by the recurrence. */
  function Psi(t: Transcendentals, m: nat, x: real): real
    decreases m
  {
    if m == 0 then Seed0(t, x)
    else if m == 1 then Seed1(t, x)
    else Step(t, m, x, Psi(t, m - 2, x), Psi(t, m - 1, x))
  }

  /** psi_n(x) / psi_0(x): the recurrence run from the seeds 1 and
      sqrt(2) x, that is, psi_n without its Gaussian factor. */
  function Ratio(t: Transcendentals, n: nat, x: real): real
    decreases n
  {
    if n == 0 then 1.0
    else if n == 1 then t.sqrt(2.0) * x
    else Step(t, n, x, Ratio(t, n - 2, x), Ratio(t, n - 1, x))
  }

  /** The recurrence is linear in the two previous values. */
  lemma {:induction false} StepScales(t: Transcendentals, m: nat, x: real, k: real, u0: real, u1: real)
    requires 1 <= m
    ensures Step(t, m, x, Mul(k, u0), Mul(k, u1)) == Mul(k, Step(t, m, x, u0, u1))
  {
  }

  /** psi_n is the ground state psi_0 times `Ratio`. */
  lemma {:induction false} PsiIsSeedTimesRatio(t: Transcendentals, n: nat, x: real)
    ensures Psi(t, n, x) == Mul(Seed0(t, x), Ratio(t, n, x))
    decreases n
  {
    if n >= 2 {
      PsiIsSeedTimesRatio(t, n - 2, x);
      PsiIsSeedTimesRatio(t, n - 1, x);
      StepScales(t, n, x, Seed0(t, x), Ratio(t, n - 2, x), Ratio(t, n - 1, x));
    }
  }

  /** The stack [psi_0(x), ..., psi_n(x)]. */
  function Table(t: Transcendentals, n: nat, x: real): (rows: seq<real>)
    ensures |rows| == n + 1
  {
    seq(n + 1, m requires 0 <= m <= n => Psi(t, m, x))
  }

  /** The stack for a smaller order is a prefix of the stack for a larger
      one: computing more orders never changes the earlier rows. */
  lemma {:induction false} TablePrefix(t: Transcendentals, n: nat, n': nat, x: real)
    requires n <= n'
    ensures Table(t, n', x)[..n + 1] == Table(t, n, x)
  {
  }

  /** At x = 0 the first term of the recurrence drops out. */
  lemma {:induction false} StepAtZero(t: Transcendentals, m: nat)
    requires 2 <= m
    ensures Psi(t, m, 0.0) == -t.sqrt((m - 1) as real / m as real) * Psi(t, m - 2, 0.0)
  {
  }

  /** Odd orders vanish at the origin: psi_{2k+1}(0) == 0. */
  lemma {:induction false} OddVanishesAtZero(t: Transcendentals, k: nat)
    ensures Psi(t, 2 * k + 1, 0.0) == 0.0
    decreases k
  {
    if k > 0 {
      OddVanishesAtZero(t, k - 1);
      StepAtZero(t, 2 * k + 1);
    }
  }

  /** At the origin psi_{2k} has the opposite sign of psi_{2k-2}. */
  lemma {:induction false} SignAtZeroStep(t: Transcendentals, k: nat)
    requires Laws(t) && 1 <= k
    ensures 0.0 < Psi(t, 2 * (k - 1), 0.0) ==> Psi(t, 2 * k, 0.0) < 0.0
    ensures Psi(t, 2 * (k - 1), 0.0) < 0.0 ==> 0.0 < Psi(t, 2 * k, 0.0)
  {
    var m := 2 * k;
    StepAtZero(t, m);
    SqrtPositive(t, (m - 1) as real / m as real);
    SignFlip(t.sqrt((m - 1) as real / m as real), Psi(t, m - 2, 0.0));
  }

  /** Multiplying by a negative number flips the sign. */
  lemma {:induction false} SignFlip(c: real, p: real)
    requires 0.0 < c
    ensures 0.0 < p ==> -c * p < 0.0
    ensures p < 0.0 ==> 0.0 < -c * p
  {
  }

  /** Even orders alternate in sign at the origin: psi_0(0) > 0,
      psi_2(0) < 0, psi_4(0) > 0, ... */
  lemma {:induction false} EvenSignAtZero(t: Transcendentals, k: nat)
    requires Laws(t)
    ensures k % 2 == 0 ==> 0.0 < Psi(t, 2 * k, 0.0)
    ensures k % 2 == 1 ==> Psi(t, 2 * k, 0.0) < 0.0
    decreases k
  {
    if k == 0 {
      PiMinusQuarterPositive(t);
      GroundStateAtZero(t);
    } else {
      EvenSignAtZero(t, k - 1);
      SignAtZeroStep(t, k);
    }
  }

  /** psi_0(0) is exactly pi ** (-1/4). */
  lemma {:induction false} GroundStateAtZero(t: Transcendentals)
    requires Laws(t)
    ensures Psi(t, 0, 0.0) == t.piMinusQuarter
  {
    assert Gauss(t, 0.0) == t.exp(0.0);
  }
}

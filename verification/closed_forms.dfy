/** The closed-form expressions for psi_0 .. psi_5: an integer polynomial
    times a normalisation constant times the Gaussian envelope. */
module ClosedForms {
  import opened Numerics
  import opened Recurrence

  const MaxClosedOrder: nat := 5

  /** psi_n(x) for 0 <= n <= 5: the normalisation constant, times the
      integer polynomial, times the Gaussian envelope. */
  function ClosedForm(t: Transcendentals, n: nat, x: real): real
    requires Laws(t) && n <= MaxClosedOrder
  {
    Normalisation(t, n) * Polynomial(n, x) * Gauss(t, x)
  }

  /** The constant factor of each closed form, written as the source writes
      it; the reciprocal `(c * pi ** (1/4)) ** (-1)` is
      `1.0 / (c * piQuarter)`. */
  function Normalisation(t: Transcendentals, n: nat): real
    requires Laws(t) && n <= MaxClosedOrder
  {
    SqrtPositive(t, 2.0);
    SqrtPositive(t, 3.0);
    SqrtPositive(t, 6.0);
    SqrtPositive(t, 15.0);
    if n == 0 then t.piMinusQuarter
    else if n == 1 then t.sqrt(2.0) * t.piMinusQuarter
    else if n == 2 then 1.0 / (t.sqrt(2.0) * t.piQuarter)
    else if n == 3 then 1.0 / (t.sqrt(3.0) * t.piQuarter)
    else if n == 4 then 1.0 / (2.0 * t.sqrt(6.0) * t.piQuarter)
    else 1.0 / (2.0 * t.sqrt(15.0) * t.piQuarter)
  }

  /** The integer polynomial factor of `ClosedForm(t, n, x)`. */
  function Polynomial(n: nat, x: real): real
    requires n <= MaxClosedOrder
  {
    if n == 0 then 1.0
    else if n == 1 then x
    else if n == 2 then 2.0 * x * x - 1.0
    else if n == 3 then 2.0 * x * x * x - 3.0 * x
    else if n == 4 then 4.0 * x * x * x * x - 12.0 * x * x + 3.0
    else 4.0 * x * x * x * x * x - 20.0 * x * x * x + 15.0 * x
  }

  // ---------------------------------------------------------------------
  // Agreement with the recurrence. Every closed form is psi_0 times a ratio
  // `ClosedRatio(t, n, x)`, a constant `Coefficient(t, n)` times the
  // polynomial; the ratios obey the recurrence, so they are `Ratio`.

  /** `Normalisation(t, n)` divided by pi ** (-1/4). */
  ghost function Coefficient(t: Transcendentals, n: nat): real
    requires Laws(t) && n <= MaxClosedOrder
  {
    SqrtPositive(t, 2.0);
    SqrtPositive(t, 3.0);
    SqrtPositive(t, 6.0);
    SqrtPositive(t, 15.0);
    if n == 0 then 1.0
    else if n == 1 then t.sqrt(2.0)
    else if n == 2 then 1.0 / t.sqrt(2.0)
    else if n == 3 then 1.0 / t.sqrt(3.0)
    else if n == 4 then 1.0 / (2.0 * t.sqrt(6.0))
    else 1.0 / (2.0 * t.sqrt(15.0))
  }

  /** `ClosedForm(t, n, x)` divided by psi_0(x). */
  ghost function ClosedRatio(t: Transcendentals, n: nat, x: real): real
    requires Laws(t) && n <= MaxClosedOrder
  {
    Mul(Coefficient(t, n), Polynomial(n, x))
  }

  /** The reciprocal of `d * pi ** (1/4)` is pi ** (-1/4) times `1 / d`. */
  lemma {:induction false} Reciprocal(t: Transcendentals, d: real)
    requires Laws(t) && 0.0 < d
    ensures 1.0 / (d * t.piQuarter) == Mul(t.piMinusQuarter, 1.0 / d)
  {
    var q, qi := t.piQuarter, t.piMinusQuarter;
    assert (qi / d) * (d * q) == qi * q;
  }

  /** A positive square root s of k is k / s. */
  lemma {:induction false} OverRoot(s: real, k: real)
    requires 0.0 < s && s * s == k
    ensures s == k / s
  {
  }

  /** Each normalisation constant is pi ** (-1/4) times its coefficient:
      the reciprocal of `c * pi ** (1/4)` is `pi ** (-1/4) / c`. */
  lemma {:induction false} NormalisationSplit(t: Transcendentals, n: nat)
    requires Laws(t) && n <= MaxClosedOrder
    ensures Normalisation(t, n) == Mul(t.piMinusQuarter, Coefficient(t, n))
  {
    if n == 2 {
      NormalisationSplitAt(t, 2, t.sqrt(2.0));
    } else if n == 3 {
      NormalisationSplitAt(t, 3, t.sqrt(3.0));
    } else if n == 4 {
      NormalisationSplitAt(t, 4, 2.0 * t.sqrt(6.0));
    } else if n == 5 {
      NormalisationSplitAt(t, 5, 2.0 * t.sqrt(15.0));
    }
  }

  /** `NormalisationSplit` for an order 2 .. 5 whose constant is
      `1 / (d * pi ** (1/4))`. */
  lemma {:induction false} NormalisationSplitAt(t: Transcendentals, n: nat, d: real)
    requires Laws(t) && 2 <= n <= MaxClosedOrder
    requires d == [0.0, 0.0, t.sqrt(2.0), t.sqrt(3.0), 2.0 * t.sqrt(6.0), 2.0 * t.sqrt(15.0)][n]
    ensures Normalisation(t, n) == Mul(t.piMinusQuarter, Coefficient(t, n))
  {
    SqrtPositive(t, 2.0);
    SqrtPositive(t, 3.0);
    SqrtPositive(t, 6.0);
    SqrtPositive(t, 15.0);
    Reciprocal(t, d);
  }

  lemma {:induction false} Regroup(q: real, c: real, p: real, g: real)
    ensures Mul(q, c) * p * g == Mul(Mul(q, g), Mul(c, p))
  {
  }

  /** Each closed form is psi_0 times its ratio. */
  lemma {:induction false} ClosedFormFactor(t: Transcendentals, n: nat, x: real)
    requires Laws(t) && n <= MaxClosedOrder
    ensures ClosedForm(t, n, x) == Mul(Seed0(t, x), ClosedRatio(t, n, x))
  {
    NormalisationSplit(t, n);
    Regroup(t.piMinusQuarter, Coefficient(t, n), Polynomial(n, x), Gauss(t, x));
  }

  /** The factor by which the leading term of step m rescales: 2 for even
      m, 1 for odd m. */
  function Lead(m: nat): real {
    if m % 2 == 0 then 2.0 else 1.0
  }

  /** The integer polynomials obey Lead(m) x P_{m-1} - (m-1) P_{m-2} == P_m. */
  lemma {:induction false} PolynomialStep(m: nat, x: real)
    requires 2 <= m <= MaxClosedOrder
    ensures Lead(m) * x * Polynomial(m - 1, x) - (m - 1) as real * Polynomial(m - 2, x) == Polynomial(m, x)
  {
  }

  /** The square roots the recurrence coefficients take for m = 2 .. 5. */
  lemma {:induction false} Coefficients(t: Transcendentals, m: nat)
    requires Laws(t) && 2 <= m <= MaxClosedOrder
    ensures 0.0 < t.sqrt(2.0) && 0.0 < t.sqrt(3.0) && 0.0 < t.sqrt(5.0)
    ensures var s2, s3, s5 := t.sqrt(2.0), t.sqrt(3.0), t.sqrt(5.0);
            var a, b := t.sqrt((m - 1) as real / m as real), t.sqrt(2.0 / m as real);
            && (m == 2 ==> a == 1.0 / s2 && b == 1.0)
            && (m == 3 ==> a == s2 / s3 && b == s2 / s3)
            && (m == 4 ==> a == s3 / 2.0 && b == 1.0 / s2)
            && (m == 5 ==> a == 2.0 / s5 && b == s2 / s5)
  {
    var s2 := t.sqrt(2.0);
    SmallRoots(t);
    if m == 2 || m == 4 {
      assert (1.0 / s2) * (1.0 / s2) == 1.0 / (s2 * s2);
      SqrtUnique(t, 1.0 / 2.0, 1.0 / s2);
      SqrtUnique(t, 1.0, 1.0);
      if m == 4 {
        SqrtDiv(t, 3.0, 4.0);
        SqrtUnique(t, 4.0, 2.0);
      }
    } else if m == 3 {
      SqrtDiv(t, 2.0, 3.0);
    } else {
      SqrtDiv(t, 2.0, 5.0);
      SqrtDiv(t, 4.0, 5.0);
      SqrtUnique(t, 4.0, 2.0);
    }
  }

  /** The recurrence coefficients of step m carry the coefficients of
      orders m-1 and m-2 to Lead(m) and m-1 times the coefficient of order m. */
  ghost predicate CoefficientsStep(t: Transcendentals, m: nat)
    requires Laws(t) && 2 <= m <= MaxClosedOrder
  {
    && Mul(t.sqrt(2.0 / m as real), Coefficient(t, m - 1)) == Mul(Lead(m), Coefficient(t, m))
    && Mul(t.sqrt((m - 1) as real / m as real), Coefficient(t, m - 2)) == Mul((m - 1) as real, Coefficient(t, m))
  }

  lemma {:induction false} CoefficientsStep2(t: Transcendentals)
    requires Laws(t)
    ensures CoefficientsStep(t, 2)
  {
    SmallRoots(t);
    Coefficients(t, 2);
    OverRoot(t.sqrt(2.0), 2.0);
  }

  lemma {:induction false} CoefficientsStep3(t: Transcendentals)
    requires Laws(t)
    ensures CoefficientsStep(t, 3)
  {
    SmallRoots(t);
    Coefficients(t, 3);
    var s2, s3 := t.sqrt(2.0), t.sqrt(3.0);
    OverRoot(s2, 2.0);
    assert s2 / s3 * (1.0 / s2) == 1.0 / s3;
    assert s2 / s3 * s2 == s2 / s3 * (2.0 / s2);
  }

  lemma {:induction false} CoefficientsStep4(t: Transcendentals)
    requires Laws(t)
    ensures CoefficientsStep(t, 4)
  {
    SmallRoots(t);
    Coefficients(t, 4);
    SqrtMul(t, 2.0, 3.0, 6.0);
    var s2, s3 := t.sqrt(2.0), t.sqrt(3.0);
    OverRoot(s3, 3.0);
    assert 1.0 / s2 * (1.0 / s3) == 2.0 * (1.0 / (2.0 * (s2 * s3)));
    assert s3 / 2.0 * (1.0 / s2) == (3.0 / s3) / 2.0 * (1.0 / s2);
  }

  lemma {:induction false} CoefficientsStep5(t: Transcendentals)
    requires Laws(t)
    ensures CoefficientsStep(t, 5)
  {
    SmallRoots(t);
    Coefficients(t, 5);
    SqrtMul(t, 2.0, 3.0, 6.0);
    SqrtMul(t, 3.0, 5.0, 15.0);
    var s2, s3, s5 := t.sqrt(2.0), t.sqrt(3.0), t.sqrt(5.0);
    assert s2 / s5 * (1.0 / (2.0 * (s2 * s3))) == 1.0 / (2.0 * (s3 * s5));
    assert 2.0 / s5 * (1.0 / s3) == 4.0 * (1.0 / (2.0 * (s3 * s5)));
  }

  /** One recurrence step on products c * p, given how the coefficients and
      the polynomials each step. */
  lemma {:induction false} StepOfProducts(t: Transcendentals, m: nat, x: real,
                        c0: real, c1: real, c: real, p0: real, p1: real, p: real,
                        alpha: real, beta: real)
    requires 1 <= m
    requires Mul(t.sqrt(2.0 / m as real), c1) == Mul(beta, c)
    requires Mul(t.sqrt((m - 1) as real / m as real), c0) == Mul(alpha, c)
    requires beta * x * p1 - alpha * p0 == p
    ensures Step(t, m, x, Mul(c0, p0), Mul(c1, p1)) == Mul(c, p)
  {
    var a, b := t.sqrt((m - 1) as real / m as real), t.sqrt(2.0 / m as real);
    calc {
      Step(t, m, x, Mul(c0, p0), Mul(c1, p1));
      b * x * (c1 * p1) - a * (c0 * p0);
      x * p1 * (b * c1) - p0 * (a * c0);
      x * p1 * (beta * c) - p0 * (alpha * c);
      c * (beta * x * p1 - alpha * p0);
    }
  }

  /** The ratios of the closed forms obey the recurrence. */
  lemma {:induction false} ClosedRatioStep(t: Transcendentals, m: nat, x: real)
    requires Laws(t) && 2 <= m <= MaxClosedOrder
    ensures Step(t, m, x, ClosedRatio(t, m - 2, x), ClosedRatio(t, m - 1, x)) == ClosedRatio(t, m, x)
  {
    if m == 2 {
      CoefficientsStep2(t);
    } else if m == 3 {
      CoefficientsStep3(t);
    } else if m == 4 {
      CoefficientsStep4(t);
    } else {
      CoefficientsStep5(t);
    }
    PolynomialStep(m, x);
    StepOfProducts(t, m, x, Coefficient(t, m - 2), Coefficient(t, m - 1), Coefficient(t, m),
      Polynomial(m - 2, x), Polynomial(m - 1, x), Polynomial(m, x), (m - 1) as real, Lead(m));
  }

  /** The ratio of every closed form is the recurrence's `Ratio`. */
  lemma {:induction false} ClosedRatioIsRatio(t: Transcendentals, n: nat, x: real)
    requires Laws(t) && n <= MaxClosedOrder
    ensures ClosedRatio(t, n, x) == Ratio(t, n, x)
    decreases n
  {
    if n >= 2 {
      ClosedRatioIsRatio(t, n - 2, x);
      ClosedRatioIsRatio(t, n - 1, x);
      ClosedRatioStep(t, n, x);
    }
  }

  /** For every order the closed form covers, it is exactly the value the
      recurrence produces from the seeds. */
  lemma {:induction false} ClosedFormIsPsi(t: Transcendentals, n: nat, x: real)
    requires Laws(t) && n <= MaxClosedOrder
    ensures ClosedForm(t, n, x) == Psi(t, n, x)
  {
    ClosedFormFactor(t, n, x);
    ClosedRatioIsRatio(t, n, x);
    PsiIsSeedTimesRatio(t, n, x);
  }

  /** One recurrence step applied to the closed forms of orders m-2 and
      m-1 gives the closed form of order m. */
  lemma {:induction false} StepOfClosedForms(t: Transcendentals, m: nat, x: real)
    requires Laws(t) && 2 <= m <= MaxClosedOrder
    ensures Step(t, m, x, ClosedForm(t, m - 2, x), ClosedForm(t, m - 1, x)) == ClosedForm(t, m, x)
  {
    ClosedFormIsPsi(t, m - 2, x);
    ClosedFormIsPsi(t, m - 1, x);
    ClosedFormIsPsi(t, m, x);
  }

  /** Every normalisation constant is positive. */
  lemma {:induction false} NormalisationPositive(t: Transcendentals, n: nat)
    requires Laws(t) && n <= MaxClosedOrder
    ensures 0.0 < Normalisation(t, n)
  {
    PiMinusQuarterPositive(t);
    SqrtPositive(t, 2.0);
    SqrtPositive(t, 3.0);
    SqrtPositive(t, 6.0);
    SqrtPositive(t, 15.0);
    if n == 1 {
      assert 0.0 < t.sqrt(2.0) * t.piMinusQuarter;
    }
  }

  /** The closed forms at the origin: the odd ones vanish, and the even
      ones are positive for n = 0, 4 and negative for n = 2, read off the
      polynomial factors 1, -1 and 3. */
  lemma {:induction false} ClosedFormAtZero(t: Transcendentals, n: nat)
    requires Laws(t) && n <= MaxClosedOrder
    ensures n % 2 == 1 ==> ClosedForm(t, n, 0.0) == 0.0
    ensures n % 4 == 0 ==> 0.0 < ClosedForm(t, n, 0.0)
    ensures n % 4 == 2 ==> ClosedForm(t, n, 0.0) < 0.0
  {
    NormalisationPositive(t, n);
    var c := Normalisation(t, n);
    assert Gauss(t, 0.0) == 1.0 by {
      assert -(0.0 * 0.0) / 2.0 == 0.0;
    }
    assert ClosedForm(t, n, 0.0) == c * Polynomial(n, 0.0);
  }
}

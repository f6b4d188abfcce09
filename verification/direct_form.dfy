/** The direct evaluation psi_n(x) = (2^n n!)^(-1/2) pi^(-1/4) exp(-x^2/2) H_n(x),
    with H_n the physicists' Hermite polynomial. SciPy's `factorial` and
    `eval_hermite` are taken to be the mathematical functions they name:
    n! (returned as a float) and the polynomial defined by H_0 = 1,
    H_1 = 2x, H_m = 2x H_{m-1} - 2(m-1) H_{m-2}. */
module DirectForm {
  import opened Numerics
  import opened Recurrence

  /** `factorial(n)`, which SciPy returns as a float. */
  function Factorial(n: nat): (r: real)
    ensures 1.0 <= r
  {
    if n == 0 then 1.0 else n as real * Factorial(n - 1)
  }

  /** Python's `2 ** n`. */
  function Pow2(n: nat): (r: nat)
    ensures 1 <= r
  {
    if n == 0 then 1 else 2 * Pow2(n - 1)
  }

  /** One step of the Hermite recurrence: H_m from h0 = H_{m-2} and h1 = H_{m-1}. */
  function HermiteStep(m: nat, x: real, h0: real, h1: real): real {
    2.0 * x * h1 - 2.0 * (m - 1) as real * h0
  }

  /** The physicists' Hermite polynomial H_n at x. */
  function Hermite(n: nat, x: real): real
    decreases n
  {
    if n == 0 then 1.0
    else if n == 1 then 2.0 * x
    else HermiteStep(n, x, Hermite(n - 2, x), Hermite(n - 1, x))
  }

  /** `2 ** n * factorial(n)`, built up one factor `2 n` at a time;
      `ScaleIsPow2Factorial` states that it is that product. */
  function Scale(n: nat): (r: real)
    ensures 1.0 <= r
  {
    if n == 0 then 1.0 else 2.0 * n as real * Scale(n - 1)
  }

  /** `_H_direct(n, x)`: `1 / sqrt(2 ** n * factorial(n)) * pi ** (-1/4)
      * exp(-(x ** 2) / 2) * eval_hermite(n, x)`. The square root is positive
      whenever `t` obeys `Laws` (`SqrtPositive`); the precondition only keeps
      the division defined for arbitrary `t`. */
  function Direct(t: Transcendentals, n: nat, x: real): real
    requires 0.0 < t.sqrt(Scale(n))
  {
    1.0 / t.sqrt(Scale(n)) * (t.piMinusQuarter * Gauss(t, x)) * Hermite(n, x)
  }

  lemma {:induction false} ScaleIsProduct(n: nat)
    ensures Scale(n) == Mul(Pow2(n) as real, Factorial(n))
  {
    if n > 0 {
      ScaleIsProduct(n - 1);
      var p, f := Pow2(n - 1) as real, Factorial(n - 1);
      assert 2.0 * n as real * (p * f) == (2.0 * p) * (n as real * f);
    }
  }

  /** `Scale(n)` is the product `2 ** n * factorial(n)` of the source. */
  lemma {:induction false} ScaleIsPow2Factorial(n: nat)
    ensures Scale(n) == Pow2(n) as real * Factorial(n)
  {
    ScaleIsProduct(n);
  }

  lemma {:induction false} ScaleStep(m: nat)
    requires 1 <= m
    ensures Scale(m) == Mul(2.0 * m as real, Scale(m - 1))
  {
  }

  lemma {:induction false} ScaleTwoSteps(m: nat)
    requires 2 <= m
    ensures Scale(m) == Mul(Mul(4.0 * m as real, (m - 1) as real), Scale(m - 2))
  {
    var mr, j, c := m as real, (m - 1) as real, Scale(m - 2);
    assert Scale(m - 1) == 2.0 * j * c;
    assert Scale(m) == 2.0 * mr * (2.0 * j * c);
  }

  /** Two square roots whose arguments multiply to c * c multiply to c. */
  lemma {:induction false} RootProduct(t: Transcendentals, p: real, q: real, c: real)
    requires Laws(t) && 0.0 <= p && 0.0 <= q && 0.0 <= c && Mul(p, q) == c * c
    ensures Mul(t.sqrt(p), t.sqrt(q)) == c
  {
    SqrtMul(t, p, q, c * c);
    SqrtUnique(t, c * c, c);
  }

  /** Regrouping a product whose first two factors are known. */
  lemma {:induction false} RegroupScale(u: real, v: real, w: real, c: real)
    requires Mul(u, v) == c
    ensures Mul(u, Mul(v, w)) == Mul(c, w)
  {
  }

  /** sqrt(2/m) * sqrt(2m) == 2 */
  lemma {:induction false} LeadingCoefficient(t: Transcendentals, m: nat)
    requires Laws(t) && 1 <= m
    ensures Mul(t.sqrt(2.0 / m as real), t.sqrt(2.0 * m as real)) == 2.0
  {
    var mr := m as real;
    assert 2.0 / mr * (2.0 * mr) == 2.0 * 2.0;
    RootProduct(t, 2.0 / mr, 2.0 * mr, 2.0);
  }

  /** sqrt((m-1)/m) * sqrt(4m(m-1)) == 2(m-1) */
  lemma {:induction false} TrailingCoefficient(t: Transcendentals, m: nat)
    requires Laws(t) && 2 <= m
    ensures Mul(t.sqrt((m - 1) as real / m as real), t.sqrt(Mul(4.0 * m as real, (m - 1) as real)))
            == 2.0 * (m - 1) as real
  {
    var mr, j := m as real, (m - 1) as real;
    assert j / mr * (4.0 * mr * j) == 2.0 * j * (2.0 * j);
    RootProduct(t, j / mr, Mul(4.0 * mr, j), 2.0 * j);
  }

  /** sqrt(2/m) * sqrt(2^m m!) == 2 * sqrt(2^(m-1) (m-1)!) */
  lemma {:induction false} LeadingRoot(t: Transcendentals, m: nat)
    requires Laws(t) && 1 <= m
    ensures Mul(t.sqrt(2.0 / m as real), t.sqrt(Scale(m))) == Mul(2.0, t.sqrt(Scale(m - 1)))
  {
    LeadingCoefficient(t, m);
    ScaleStep(m);
    SqrtMul(t, 2.0 * m as real, Scale(m - 1), Scale(m));
    RegroupScale(t.sqrt(2.0 / m as real), t.sqrt(2.0 * m as real), t.sqrt(Scale(m - 1)), 2.0);
  }

  /** sqrt((m-1)/m) * sqrt(2^m m!) == 2 (m-1) * sqrt(2^(m-2) (m-2)!) */
  lemma {:induction false} TrailingRoot(t: Transcendentals, m: nat)
    requires Laws(t) && 2 <= m
    ensures Mul(t.sqrt((m - 1) as real / m as real), t.sqrt(Scale(m)))
            == Mul(2.0 * (m - 1) as real, t.sqrt(Scale(m - 2)))
  {
    var q := Mul(4.0 * m as real, (m - 1) as real);
    TrailingCoefficient(t, m);
    ScaleTwoSteps(m);
    SqrtMul(t, q, Scale(m - 2), Scale(m));
    RegroupScale(t.sqrt((m - 1) as real / m as real), t.sqrt(q), t.sqrt(Scale(m - 2)), 2.0 * (m - 1) as real);
  }

  /** One step of `RatioTimesRoot`: u0, u1 are the ratios of orders m-2
      and m-1; h0, h1 the Hermite values; rC, rB, rA the square roots of
      the scales of orders m-2, m-1, m. */
  lemma {:induction false} RatioStep(t: Transcendentals, m: nat, x: real,
                 u0: real, u1: real, h0: real, h1: real,
                 rA: real, rB: real, rC: real)
    requires 2 <= m
    requires Mul(u1, rB) == h1 && Mul(u0, rC) == h0
    requires Mul(t.sqrt(2.0 / m as real), rA) == Mul(2.0, rB)
    requires Mul(t.sqrt((m - 1) as real / m as real), rA) == Mul(2.0 * (m - 1) as real, rC)
    ensures Mul(Step(t, m, x, u0, u1), rA) == HermiteStep(m, x, h0, h1)
  {
    var a, b, j := t.sqrt((m - 1) as real / m as real), t.sqrt(2.0 / m as real), (m - 1) as real;
    calc {
      Step(t, m, x, u0, u1) * rA;
      (b * x * u1 - a * u0) * rA;
      x * u1 * (b * rA) - u0 * (a * rA);
      x * u1 * (2.0 * rB) - u0 * (2.0 * j * rC);
      2.0 * x * (u1 * rB) - 2.0 * j * (u0 * rC);
    }
  }

  /** Multiplying `Ratio` back by its normaliser gives the Hermite polynomial. */
  lemma {:induction false} RatioTimesRoot(t: Transcendentals, n: nat, x: real)
    requires Laws(t)
    ensures Mul(Ratio(t, n, x), t.sqrt(Scale(n))) == Hermite(n, x)
    decreases n
  {
    if n == 0 {
      SqrtUnique(t, 1.0, 1.0);
    } else if n == 1 {
      SmallRoots(t);
      calc {
        Mul(Ratio(t, 1, x), t.sqrt(Scale(1)));
        (t.sqrt(2.0) * t.sqrt(2.0)) * x;
        2.0 * x;
      }
    } else {
      RatioTimesRoot(t, n - 2, x);
      RatioTimesRoot(t, n - 1, x);
      LeadingRoot(t, n);
      TrailingRoot(t, n);
      RatioStep(t, n, x, Ratio(t, n - 2, x), Ratio(t, n - 1, x),
        Hermite(n - 2, x), Hermite(n - 1, x),
        t.sqrt(Scale(n)), t.sqrt(Scale(n - 1)), t.sqrt(Scale(n - 2)));
    }
  }

  /** Dividing the Hermite value by its normaliser leaves `Ratio`. */
  lemma {:induction false} DirectFromRatio(t: Transcendentals, n: nat, x: real)
    requires 0.0 < t.sqrt(Scale(n))
    requires Mul(Ratio(t, n, x), t.sqrt(Scale(n))) == Hermite(n, x)
    ensures Direct(t, n, x) == Mul(Seed0(t, x), Ratio(t, n, x))
  {
    calc {
      Direct(t, n, x);
      1.0 / t.sqrt(Scale(n)) * Seed0(t, x) * (Ratio(t, n, x) * t.sqrt(Scale(n)));
      Seed0(t, x) * Ratio(t, n, x) * (t.sqrt(Scale(n)) / t.sqrt(Scale(n)));
    }
  }

  /** The direct evaluation and the recurrence agree at every order. */
  lemma {:induction false} DirectIsPsi(t: Transcendentals, n: nat, x: real)
    requires Laws(t)
    ensures 0.0 < t.sqrt(Scale(n)) && Direct(t, n, x) == Psi(t, n, x)
  {
    SqrtPositive(t, Scale(n));
    RatioTimesRoot(t, n, x);
    PsiIsSeedTimesRatio(t, n, x);
    DirectFromRatio(t, n, x);
  }
}

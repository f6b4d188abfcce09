/** The transcendental parts of the computation -- numpy's `sqrt`, `exp` and
    the constants `pi ** (1/4)` and `pi ** (-1/4)` -- enter the model as
    parameters. Only the laws below are assumed of them; everything else
    about them is left open, so every theorem holds for any functions
    obeying these laws, in particular for the exact real ones. */
module Numerics {

  datatype Transcendentals = Transcendentals(
    sqrt: real -> real,
    exp: real -> real,
    piQuarter: real,        // pi ** (1/4)
    piMinusQuarter: real    // pi ** (-1/4)
  )

  /** `t.sqrt(a)` under a name of its own: the square-root law below is
      stated over `Root`, so a proof instantiates it only at the arguments
      it names through the lemmas of this module, which keeps the
      non-linear arithmetic of the other proofs small. */
  ghost function Root(t: Transcendentals, a: real): real {
    t.sqrt(a)
  }

  /** The laws of the exact real functions that the proofs rely on. */
  ghost predicate Laws(t: Transcendentals) {
    && (forall a :: 0.0 <= a ==> 0.0 <= Root(t, a) && Root(t, a) * Root(t, a) == a)
    && (forall y :: 0.0 < t.exp(y))
    && t.exp(0.0) == 1.0
    && 0.0 < t.piQuarter
    && t.piQuarter * t.piMinusQuarter == 1.0
  }

  /** The Gaussian envelope `exp(-(x ** 2) / 2)` shared by every order. */
  function Gauss(t: Transcendentals, x: real): real {
    t.exp(-(x * x) / 2.0)
  }

  /** A product of two reals as a term of its own. Proofs state their
      intermediate facts with `Mul`, so that a fact proved about one product
      is recognised wherever the same two factors meet again. */
  ghost function Mul(a: real, b: real): real {
    a * b
  }

  /** Two non-negative reals with the same square are equal. */
  lemma {:induction false} SquareInjective(u: real, v: real)
    requires 0.0 <= u && 0.0 <= v && u * u == v * v
    ensures u == v
  {
    assert (u - v) * (u + v) == u * u - v * v;
    if u + v == 0.0 {
      assert u == 0.0 && v == 0.0;
    }
  }

  /** `sqrt` is determined by its laws: any non-negative square root of `a`
      is `sqrt(a)`. */
  lemma {:induction false} SqrtUnique(t: Transcendentals, a: real, u: real)
    requires Laws(t)
    requires 0.0 <= u && u * u == a
    ensures t.sqrt(a) == u
  {
    SquareInjective(Root(t, a), u);
  }

  lemma {:induction false} SqrtSquare(t: Transcendentals, a: real)
    requires Laws(t) && 0.0 <= a
    ensures 0.0 <= t.sqrt(a) && t.sqrt(a) * t.sqrt(a) == a
  {
    assert Root(t, a) * Root(t, a) == a;
  }

  /** The square roots of 2, 3 and 5, which the closed forms use. */
  lemma {:induction false} SmallRoots(t: Transcendentals)
    requires Laws(t)
    ensures 0.0 < t.sqrt(2.0) && t.sqrt(2.0) * t.sqrt(2.0) == 2.0
    ensures 0.0 < t.sqrt(3.0) && t.sqrt(3.0) * t.sqrt(3.0) == 3.0
    ensures 0.0 < t.sqrt(5.0) && t.sqrt(5.0) * t.sqrt(5.0) == 5.0
  {
    SqrtSquare(t, 2.0);
    SqrtSquare(t, 3.0);
    SqrtSquare(t, 5.0);
  }

  lemma {:induction false} SqrtPositive(t: Transcendentals, a: real)
    requires Laws(t) && 0.0 < a
    ensures 0.0 < t.sqrt(a)
  {
    assert Root(t, a) * Root(t, a) == a;
  }

  lemma {:induction false} SqrtMul(t: Transcendentals, a: real, b: real, c: real)
    requires Laws(t) && 0.0 <= a && 0.0 <= b && c == a * b
    ensures t.sqrt(c) == t.sqrt(a) * t.sqrt(b)
  {
    var u, v := Root(t, a), Root(t, b);
    assert (u * v) * (u * v) == (u * u) * (v * v);
    SqrtUnique(t, c, u * v);
  }

  lemma {:induction false} SqrtDiv(t: Transcendentals, a: real, b: real)
    requires Laws(t) && 0.0 <= a && 0.0 < b
    ensures t.sqrt(a / b) * t.sqrt(b) == t.sqrt(a)
  {
    SqrtMul(t, a / b, b, a);
  }

  lemma {:induction false} PiMinusQuarterPositive(t: Transcendentals)
    requires Laws(t)
    ensures 0.0 < t.piMinusQuarter
  {
  }
}

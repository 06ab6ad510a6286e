/** The 2-of-2 Lagrange reconstruction of `export_private_key` for ed25519 key shares.

    Scalars are canonical representatives modulo an arbitrary prime `q`.  `compress` stands for
    "multiply the base point and compress": the encoding of the group element with a given
    discrete logarithm. */
module Lagrange {
  import opened ModArith

  // ── Scalars ─────────────────────────────────────────────────────────

  function Add(q: nat, a: nat, b: nat): nat requires q > 0 { (a + b) % q }
  function Sub(q: nat, a: int, b: int): nat requires q > 0 { (a - b) % q }
  function Neg(q: nat, a: int): nat requires q > 0 { (-a) % q }
  function Mul(q: nat, a: nat, b: nat): nat requires q > 0 { (a * b) % q }

  /** The interpolating polynomial of degree at most one, and its value at `x`. */
  datatype Poly = Poly(a: nat, b: nat)

  ghost predicate IsPoly(q: nat, f: Poly) { f.a < q && f.b < q }

  function Eval(q: nat, f: Poly, x: nat): nat requires q > 0 { Add(q, f.a, Mul(q, f.b, x)) }

  function Secret(q: nat, x1: nat, s1: nat, x2: nat, s2: nat): (r: nat)
    requires q > 0
    ensures r < q
  {
    var l1 := Mul(q, Neg(q, x2), Inverse(q, Sub(q, x1, x2)));
    var l2 := Mul(q, Neg(q, x1), Inverse(q, Sub(q, x2, x1)));
    Add(q, Mul(q, l1, s1), Mul(q, l2, s2))
  }

  // ── Correctness of the interpolation ────────────────────────────────

  lemma SubNonZero(q: nat, x1: nat, x2: nat)
    requires x1 < q && x2 < q && x1 != x2
    ensures 0 < Sub(q, x1, x2) < q
  {
    if Sub(q, x1, x2) == 0 {
      CongMod(q, x1 - x2);
      CongRefl(q, x2);
      CongAdd(q, x1 - x2, 0, x2, x2);
      CongUnique(q, x1, x2);
    }
  }

  lemma Reorder(d: int, i: int, t: int)
    ensures d * i * t == d * (t * i)
  {
  }

  /** If d * i is one, d * (n * i), reduced, is n. */
  lemma Divided(q: nat, d: nat, i: nat, n: nat, y: int)
    requires q > 0 && Cong(q, d * i, 1) && Cong(q, n, y)
    ensures Cong(q, d * Mul(q, n, i), y)
  {
    CongMod(q, n * i);
    CongRefl(q, d);
    CongMul(q, d, d, Mul(q, n, i), n * i);
    CongMul(q, d * i, 1, n, y);
    Reorder(d, i, n);
    CongTrans(q, d * Mul(q, n, i), d * (n * i), y);
  }

  lemma Coefficient(q: nat, x: int, d: nat)
    requires IsPrime(q) && 0 < d < q
    ensures Cong(q, d * Mul(q, Neg(q, x), Inverse(q, d)), -x)
  {
    hide Mul, Inverse, IsPrime, Cong;
    CongMod(q, -x);
    InverseCorrect(q, d);
    Divided(q, d, Inverse(q, d), Neg(q, x), -x);
  }

  /** Cleared of denominators: (x1 - x2) * secret = x1 * s2 - x2 * s1. */
  lemma Core(q: nat, x1: int, s1: nat, x2: int, s2: nat)
    requires IsPrime(q) && 0 <= x1 < q && 0 <= x2 < q && x1 != x2
    ensures Cong(q, Sub(q, x1, x2) * Secret(q, x1, s1, x2, s2), x1 * s2 - x2 * s1)
  {
    var d, e := Sub(q, x1, x2), Sub(q, x2, x1);
    var l1, l2 := Mul(q, Neg(q, x2), Inverse(q, d)), Mul(q, Neg(q, x1), Inverse(q, e));
    SubNonZero(q, x1, x2);
    SubNonZero(q, x2, x1);
    Coefficient(q, x2, d);
    Coefficient(q, x1, e);
    SecondCoefficient(q, x1, x2, d, e, l2);
    SumOfProducts(q, d, l1, s1, -x2, l2, s2, x1);
    assert -x2 * s1 + x1 * s2 == x1 * s2 - x2 * s1;
  }

  lemma SecondCoefficient(q: nat, x1: int, x2: int, d: nat, e: nat, l2: nat)
    requires q > 0 && d == Sub(q, x1, x2) && e == Sub(q, x2, x1) && Cong(q, e * l2, -x1)
    ensures Cong(q, d * l2, x1)
  {
    CongMod(q, x1 - x2);
    CongMod(q, x2 - x1);
    CongAdd(q, d, x1 - x2, e, x2 - x1);
    CongRefl(q, l2);
    CongMul(q, d + e, 0, l2, l2);
    assert (d + e) * l2 - e * l2 == d * l2;
    CongAdd(q, (d + e) * l2, 0, e * l2, -x1);
  }

  lemma SumOfProducts(q: nat, d: nat, l1: nat, s1: nat, c1: int, l2: nat, s2: nat, c2: int)
    requires q > 0 && Cong(q, d * l1, c1) && Cong(q, d * l2, c2)
    ensures Cong(q, d * Add(q, Mul(q, l1, s1), Mul(q, l2, s2)), c1 * s1 + c2 * s2)
  {
    var m1, m2 := Mul(q, l1, s1), Mul(q, l2, s2);
    CongMod(q, l1 * s1);
    CongMod(q, l2 * s2);
    CongAdd(q, m1, l1 * s1, m2, l2 * s2);
    CongMod(q, m1 + m2);
    CongTrans(q, Add(q, m1, m2), m1 + m2, l1 * s1 + l2 * s2);
    CongRefl(q, d);
    CongMul(q, d, d, Add(q, m1, m2), l1 * s1 + l2 * s2);
    Distribute(d, l1, s1, l2, s2);
    CongRefl(q, s1);
    CongRefl(q, s2);
    CongMul(q, d * l1, c1, s1, s1);
    CongMul(q, d * l2, c2, s2, s2);
    CongAdd(q, d * l1 * s1, c1 * s1, d * l2 * s2, c2 * s2);
    CongTrans(q, d * Add(q, m1, m2), d * (l1 * s1 + l2 * s2), c1 * s1 + c2 * s2);
  }

  lemma Distribute(d: int, l1: int, s1: int, l2: int, s2: int)
    ensures d * (l1 * s1 + l2 * s2) == d * l1 * s1 + d * l2 * s2
  {
  }

  lemma EvalCong(q: nat, f: Poly, x: nat)
    requires q > 0
    ensures Cong(q, Eval(q, f, x), f.a + f.b * x)
  {
    CongMod(q, f.b * x);
    CongRefl(q, f.a);
    CongAdd(q, f.a, f.a, Mul(q, f.b, x), f.b * x);
    CongMod(q, f.a + Mul(q, f.b, x));
    CongTrans(q, Eval(q, f, x), f.a + Mul(q, f.b, x), f.a + f.b * x);
  }

  lemma CrossTerms(a: int, b: int, x1: int, x2: int)
    ensures x1 * (a + b * x2) - x2 * (a + b * x1) == (x1 - x2) * a
  {
    assert x1 * (a + b * x2) == x1 * a + x1 * b * x2;
    assert x2 * (a + b * x1) == x2 * a + x2 * b * x1;
  }

  /** Shares of a polynomial reconstruct its value at zero, whatever the two identifiers. */
  lemma InterpolatesAtZero(q: nat, f: Poly, x1: nat, x2: nat)
    requires IsPrime(q) && IsPoly(q, f) && x1 < q && x2 < q && x1 != x2
    ensures Secret(q, x1, Eval(q, f, x1), x2, Eval(q, f, x2)) == f.a
  {
    var s1, s2, d := Eval(q, f, x1), Eval(q, f, x2), Sub(q, x1, x2);
    var secret := Secret(q, x1, s1, x2, s2);
    Core(q, x1, s1, x2, s2);
    EvalCong(q, f, x1);
    EvalCong(q, f, x2);
    CongRefl(q, x1);
    CongRefl(q, x2);
    CongMul(q, x1, x1, s2, f.a + f.b * x2);
    CongMul(q, x2, x2, s1, f.a + f.b * x1);
    CongAdd(q, x1 * s2, x1 * (f.a + f.b * x2), x2 * s1, x2 * (f.a + f.b * x1));
    CrossTerms(f.a, f.b, x1, x2);
    CongTrans(q, d * secret, x1 * s2 - x2 * s1, (x1 - x2) * f.a);
    CongMod(q, x1 - x2);
    CongRefl(q, f.a);
    CongMul(q, x1 - x2, d, f.a, f.a);
    CongTrans(q, d * secret, (x1 - x2) * f.a, d * f.a);
    SubNonZero(q, x1, x2);
    Cancel(q, d, secret, f.a);
    CongUnique(q, secret, f.a);
  }

  /** A line with slope `b` and constant `s1 - b * x1` passes through (x1, s1). */
  lemma FirstPoint(q: nat, x1: nat, s1: nat, a: nat, b: nat)
    requires s1 < q && a == Sub(q, s1, Mul(q, b, x1))
    ensures Eval(q, Poly(a, b), x1) == s1 && Cong(q, a, s1 - b * x1)
  {
    CongMod(q, b * x1);
    CongRefl(q, s1);
    CongAdd(q, s1, s1, Mul(q, b, x1), b * x1);
    CongMod(q, s1 - Mul(q, b, x1));
    CongTrans(q, a, s1 - Mul(q, b, x1), s1 - b * x1);
    AtPoint(q, Poly(a, b), x1, s1, s1 - b * x1);
  }

  /** The value at `x`, from the constant and the slope. */
  lemma AtPoint(q: nat, f: Poly, x: nat, s: nat, c: int)
    requires s < q && Cong(q, f.a, c) && Cong(q, c + f.b * x, s)
    ensures Eval(q, f, x) == s
  {
    EvalCong(q, f, x);
    ShiftConstant(q, f.a, c, f.b * x);
    CongTrans(q, Eval(q, f, x), f.a + f.b * x, c + f.b * x);
    CongTrans(q, Eval(q, f, x), c + f.b * x, s);
    CongUnique(q, Eval(q, f, x), s);
  }

  lemma Rise(b: int, x1: int, x2: int)
    ensures -b * x1 + b * x2 == -(b * (x1 - x2))
  {
  }

  /** And through (x2, s2), if its slope is the rise over the run. */
  lemma SecondPoint(q: nat, x1: nat, s1: nat, x2: nat, s2: nat, a: nat, b: nat)
    requires s2 < q && Cong(q, a, s1 - b * x1) && Cong(q, b * (x1 - x2), s1 - s2)
    ensures Eval(q, Poly(a, b), x2) == s2
  {
    CongRefl(q, s1);
    CongAdd(q, s1, s1, b * (x1 - x2), s1 - s2);
    Rise(b, x1, x2);
    assert s1 - b * x1 + b * x2 == s1 - b * (x1 - x2);
    AtPoint(q, Poly(a, b), x2, s2, s1 - b * x1);
  }

  /** Any two shares with distinct identifiers lie on a polynomial. */
  lemma PolynomialExists(q: nat, x1: nat, s1: nat, x2: nat, s2: nat) returns (f: Poly)
    requires IsPrime(q) && x1 < q && x2 < q && x1 != x2 && s1 < q && s2 < q
    ensures IsPoly(q, f) && Eval(q, f, x1) == s1 && Eval(q, f, x2) == s2
  {
    var d := Sub(q, x1, x2);
    var b := Mul(q, Sub(q, s1, s2), Inverse(q, d));
    f := Poly(Sub(q, s1, Mul(q, b, x1)), b);
    SubNonZero(q, x1, x2);
    hide Eval, Inverse, IsPrime, Cong;
    Slope(q, s1, s2, x1, x2, d, b);
    FirstPoint(q, x1, s1, f.a, b);
    SecondPoint(q, x1, s1, x2, s2, f.a, b);
  }

  lemma ShiftConstant(q: nat, a: int, b: int, c: int)
    requires q > 0 && Cong(q, a, b)
    ensures Cong(q, a + c, b + c)
  {
    CongRefl(q, c);
    CongAdd(q, a, b, c, c);
  }

  lemma Slope(q: nat, s1: int, s2: int, x1: int, x2: int, d: nat, b: nat)
    requires IsPrime(q) && d == Sub(q, x1, x2) && 0 < d < q
    requires b == Mul(q, Sub(q, s1, s2), Inverse(q, d))
    ensures Cong(q, b * (x1 - x2), s1 - s2)
  {
    var t, i := Sub(q, s1, s2), Inverse(q, d);
    InverseCorrect(q, d);
    CongMod(q, s1 - s2);
    CongMod(q, x1 - x2);
    hide Mul, Inverse, IsPrime, Cong;
    Divided(q, d, i, t, s1 - s2);
    CongRefl(q, b);
    CongMul(q, b, b, x1 - x2, d);
    Commute(b, d);
    CongTrans(q, b * (x1 - x2), d * b, s1 - s2);
  }

  lemma Commute(a: int, b: int)
    ensures a * b == b * a
  {
  }
}

/** Arithmetic modulo a prime, and fixed-width little-endian numbers. */
module ModArith {
  import opened Wrappers

  ghost predicate Cong(q: nat, a: int, b: int)
    requires q > 0
  {
    exists k: int {:trigger k * q} :: a == b + k * q
  }

  lemma CongBy(q: nat, a: int, b: int, k: int)
    requires q > 0 && a == b + k * q
    ensures Cong(q, a, b)
  {
  }

  lemma CongAdd(q: nat, a: int, b: int, c: int, d: int)
    requires q > 0 && Cong(q, a, b) && Cong(q, c, d)
    ensures Cong(q, a + c, b + d) && Cong(q, a - c, b - d)
  {
    var k: int :| a == b + k * q;
    var l: int :| c == d + l * q;
    assert (k + l) * q == k * q + l * q && (k - l) * q == k * q - l * q;
  }

  lemma CongMul(q: nat, a: int, b: int, c: int, d: int)
    requires q > 0 && Cong(q, a, b) && Cong(q, c, d)
    ensures Cong(q, a * c, b * d)
  {
    var k: int :| a == b + k * q;
    var l: int :| c == d + l * q;
    assert a * c == b * d + (b * l + k * d + k * l * q) * q;
    CongBy(q, a * c, b * d, b * l + k * d + k * l * q);
  }

  lemma CongRefl(q: nat, a: int)
    requires q > 0
    ensures Cong(q, a, a)
  {
    CongBy(q, a, a, 0);
  }

  lemma CongSym(q: nat, a: int, b: int)
    requires q > 0 && Cong(q, a, b)
    ensures Cong(q, b, a)
  {
    var k: int :| a == b + k * q;
    CongBy(q, b, a, -k);
  }

  lemma CongTrans(q: nat, a: int, b: int, c: int)
    requires q > 0 && Cong(q, a, b) && Cong(q, b, c)
    ensures Cong(q, a, c)
  {
    var k: int :| a == b + k * q;
    var l: int :| b == c + l * q;
    assert (k + l) * q == k * q + l * q;
  }

  lemma CongMod(q: nat, a: int)
    requires q > 0
    ensures Cong(q, a % q, a) && Cong(q, a, a % q)
  {
    CongBy(q, a, a % q, a / q);
    CongSym(q, a, a % q);
  }

  /** Canonical representatives are unique. */
  lemma CongUnique(q: nat, a: int, b: int)
    requires 0 <= a < q && 0 <= b < q && Cong(q, a, b)
    ensures a == b
  {
    var k: int :| a == b + k * q;
    assert k >= 1 ==> k * q >= q;
    assert k <= -1 ==> k * q + q <= 0;
  }

  // ── Inverse by the extended Euclidean algorithm ─────────────────────

  ghost predicate Divides(d: nat, n: nat) {
    exists k: nat {:trigger k * d} :: n == k * d
  }

  ghost predicate IsPrime(q: nat) {
    q >= 2 && forall d: nat | Divides(d, q) :: d == 1 || d == q
  }

  datatype Bezout = Bezout(g: nat, x: int, y: int)

  function ExtGcd(a: nat, b: nat): (r: Bezout)
    ensures a * r.x + b * r.y == r.g
    decreases b
  {
    if b == 0 then Bezout(a, 1, 0)
    else
      var r := ExtGcd(b, a % b);
      BezoutStep(a, b, r.x, r.y);
      Bezout(r.g, r.y, r.x - a / b * r.y)
  }

  lemma BezoutStep(a: nat, b: nat, x: int, y: int)
    requires b > 0
    ensures a * y + b * (x - a / b * y) == b * x + a % b * y
  {
    assert a == b * (a / b) + a % b;
    assert a * y == b * (a / b) * y + a % b * y;
    assert b * (x - a / b * y) == b * x - b * (a / b * y);
    assert b * (a / b) * y == b * (a / b * y);
  }

  lemma Regroup(c: nat, k: nat, l: nat, g: nat)
    ensures c * (k * g) + l * g == (c * k + l) * g
  {
  }

  lemma DividesCombination(g: nat, a: nat, b: nat)
    requires b > 0 && Divides(g, b) && Divides(g, a % b)
    ensures Divides(g, a)
  {
    var k: nat :| b == k * g;
    var l: nat :| a % b == l * g;
    Regroup(a / b, k, l, g);
  }

  lemma {:induction false} GcdDivides(a: nat, b: nat)
    ensures Divides(ExtGcd(a, b).g, a) && Divides(ExtGcd(a, b).g, b)
    decreases b
  {
    var g := ExtGcd(a, b).g;
    if b == 0 {
      assert a == 1 * g && b == 0 * g;
    } else {
      GcdDivides(b, a % b);
      DividesCombination(g, a, b);
    }
  }

  function Inverse(q: nat, a: nat): nat
    requires 0 < q
  {
    ExtGcd(a, q).x % q
  }

  lemma NoMultipleBelow(q: nat, a: nat)
    requires 0 < a < q
    ensures !Divides(q, a)
  {
    forall k: nat ensures a != k * q {
      assert k == 0 || k * q >= q;
    }
  }

  lemma GcdOne(q: nat, a: nat)
    requires IsPrime(q) && 0 < a < q
    ensures ExtGcd(a, q).g == 1
  {
    GcdDivides(a, q);
    NoMultipleBelow(q, a);
  }

  lemma InverseCorrect(q: nat, a: nat)
    requires IsPrime(q) && 0 < a < q
    ensures Cong(q, a * Inverse(q, a), 1)
  {
    var r := ExtGcd(a, q);
    GcdOne(q, a);
    assert a * r.x == 1 + -r.y * q;
    CongBy(q, a * r.x, 1, -r.y);
    CongMod(q, r.x);
    CongRefl(q, a);
    CongMul(q, a, a, r.x % q, r.x);
    CongTrans(q, a * Inverse(q, a), a * r.x, 1);
  }

  /** A non-zero factor can be cancelled. */
  lemma Cancel(q: nat, d: nat, a: int, b: int)
    requires IsPrime(q) && 0 < d < q && Cong(q, d * a, d * b)
    ensures Cong(q, a, b)
  {
    var i := Inverse(q, d);
    InverseCorrect(q, d);
    CongRefl(q, i);
    CongMul(q, i, i, d * a, d * b);
    forall n: int ensures Cong(q, i * (d * n), n) {
      CongRefl(q, n);
      CongMul(q, d * i, 1, n, n);
      assert d * i * n == i * (d * n);
    }
    CongSym(q, i * (d * a), a);
    CongTrans(q, a, i * (d * a), i * (d * b));
    CongTrans(q, a, i * (d * b), b);
  }

  // ── Little-endian encoding ──────────────────────────────────────────

  function Pow(b: nat, n: nat): nat {
    if n == 0 then 1 else b * Pow(b, n - 1)
  }

  function ToLE(n: nat, len: nat): (r: Bytes)
    ensures |r| == len
  {
    if len == 0 then [] else [n % 256] + ToLE(n / 256, len - 1)
  }

  function FromLE(s: Bytes): nat {
    if s == [] then 0 else s[0] + 256 * FromLE(s[1..])
  }

  lemma {:induction false} LittleEndianRoundTrip(n: nat, len: nat)
    requires n < Pow(256, len)
    ensures FromLE(ToLE(n, len)) == n
    decreases len
  {
    if len > 0 {
      LittleEndianRoundTrip(n / 256, len - 1);
      assert ToLE(n, len)[1..] == ToLE(n / 256, len - 1);
    }
  }

  lemma LowByte(b: byte, n: nat)
    ensures (b + 256 * n) % 256 == b && (b + 256 * n) / 256 == n
  {
  }

  lemma {:induction false} LittleEndianBack(s: Bytes)
    ensures FromLE(s) < Pow(256, |s|) && ToLE(FromLE(s), |s|) == s
  {
    if s != [] {
      LittleEndianBack(s[1..]);
      var n := FromLE(s[1..]);
      LowByte(s[0], n);
      assert ToLE(s[0] + 256 * n, |s|) == [s[0]] + ToLE(n, |s| - 1);
      assert Pow(256, |s|) == 256 * Pow(256, |s| - 1);
    }
  }
}

/** Big-endian positional numerals, and the conversion between two bases that keeps leading zero
    digits as they are; Base58 is this conversion between base 256 and base 58. */
module Numerals {
  import opened ModArith

  predicate IsNumeral(ds: seq<nat>, base: nat) {
    forall i :: 0 <= i < |ds| ==> ds[i] < base
  }

  function Value(ds: seq<nat>, base: nat): nat {
    if ds == [] then 0 else Value(ds[..|ds| - 1], base) * base + ds[|ds| - 1]
  }

  /** The shortest numeral of `n`; empty for zero. */
  function Digits(n: nat, base: nat): (ds: seq<nat>)
    requires base >= 2
    ensures IsNumeral(ds, base)
    ensures ds != [] ==> ds[0] != 0
  {
    if n == 0 then [] else Digits(n / base, base) + [n % base]
  }

  function LeadingZeros(ds: seq<nat>): (z: nat)
    ensures z <= |ds|
    ensures forall i :: 0 <= i < z ==> ds[i] == 0
    ensures z < |ds| ==> ds[z] != 0
  {
    if ds == [] || ds[0] != 0 then 0 else 1 + LeadingZeros(ds[1..])
  }

  function Zeros(n: nat): seq<nat> {
    seq(n, _ => 0)
  }

  function Convert(ds: seq<nat>, from: nat, to: nat): (r: seq<nat>)
    requires from >= 2 && to >= 2
    ensures IsNumeral(r, to)
  {
    Zeros(LeadingZeros(ds)) + Digits(Value(ds, from), to)
  }

  lemma Decompose(n: nat, base: nat)
    requires base >= 2
    ensures n == n / base * base + n % base
    ensures n > 0 ==> n / base < n
  {
  }

  lemma ValueSnoc(ds: seq<nat>, d: nat, base: nat)
    ensures Value(ds + [d], base) == Value(ds, base) * base + d
  {
    assert (ds + [d])[..|ds|] == ds;
  }

  lemma {:induction false} ValueOfDigits(n: nat, base: nat)
    requires base >= 2
    ensures Value(Digits(n, base), base) == n
    decreases n
  {
    Decompose(n, base);
    if n > 0 {
      var m, d := n / base, n % base;
      ValueOfDigits(m, base);
      ValueSnoc(Digits(m, base), d, base);
    }
  }

  lemma {:induction false} DigitsOfValue(ds: seq<nat>, base: nat)
    requires base >= 2 && IsNumeral(ds, base) && (ds != [] ==> ds[0] != 0)
    ensures Digits(Value(ds, base), base) == ds
    decreases |ds|
  {
    if ds != [] {
      var hi, lo := ds[..|ds| - 1], ds[|ds| - 1];
      DigitsOfValue(hi, base);
      var n := Value(hi, base);
      if hi == [] { assert lo == ds[0]; } else { assert n != 0 by { assert hi != Digits(0, base); } }
      DivMod(n, base, lo);
      assert Value(ds, base) == n * base + lo > 0;
      assert ds == hi + [lo];
    }
  }

  lemma DivMod(n: nat, base: nat, lo: nat)
    requires lo < base
    ensures (n * base + lo) / base == n && (n * base + lo) % base == lo
    ensures n > 0 ==> n * base > 0
  {
    var v := n * base + lo;
    CongBy(base, v, lo, n);
    CongMod(base, v);
    CongSym(base, v, lo);
    CongTrans(base, lo, v, v % base);
    CongUnique(base, lo, v % base);
    assert v == base * (v / base) + lo;
    SameQuotient(base, n, v / base);
  }

  lemma SameQuotient(base: nat, a: int, b: int)
    requires base > 0 && a * base == base * b
    ensures a == b
  {
    assert (a - b) * base == 0;
  }

  lemma {:induction false} ValueSkipsZeros(z: nat, ds: seq<nat>, base: nat)
    ensures Value(Zeros(z) + ds, base) == Value(ds, base)
    decreases |ds|, z
  {
    var all := Zeros(z) + ds;
    if ds != [] {
      assert all[..|all| - 1] == Zeros(z) + ds[..|ds| - 1];
      ValueSkipsZeros(z, ds[..|ds| - 1], base);
    } else if z > 0 {
      assert all[..|all| - 1] == Zeros(z - 1) + ds;
      ValueSkipsZeros(z - 1, ds, base);
    }
  }

  lemma {:induction false} LeadingZerosOf(z: nat, ds: seq<nat>)
    requires ds != [] ==> ds[0] != 0
    ensures LeadingZeros(Zeros(z) + ds) == z
  {
    var all := Zeros(z) + ds;
    if z > 0 {
      assert all[1..] == Zeros(z - 1) + ds;
      LeadingZerosOf(z - 1, ds);
    }
  }

  lemma Split(ds: seq<nat>) returns (rest: seq<nat>)
    ensures ds == Zeros(LeadingZeros(ds)) + rest && (rest != [] ==> rest[0] != 0)
  {
    rest := ds[LeadingZeros(ds)..];
  }

  /** Converting back undoes converting. */
  lemma ConvertRoundTrip(ds: seq<nat>, a: nat, b: nat)
    requires a >= 2 && b >= 2 && IsNumeral(ds, a)
    ensures Convert(Convert(ds, a, b), b, a) == ds
  {
    var z := LeadingZeros(ds);
    var rest := Split(ds);
    assert IsNumeral(rest, a) by { assert forall i :: 0 <= i < |rest| ==> rest[i] == ds[z + i]; }
    ValueSkipsZeros(z, rest, a);
    var n := Value(rest, a);
    LeadingZerosOf(z, Digits(n, b));
    ValueSkipsZeros(z, Digits(n, b), b);
    ValueOfDigits(n, b);
    DigitsOfValue(rest, a);
  }

  // ── Lengths ─────────────────────────────────────────────────────────

  /** The number of digits of `n` is the least `d` with `n < base ^ d`. */
  lemma {:induction false} DigitCount(n: nat, base: nat)
    requires base >= 2
    ensures n < Pow(base, |Digits(n, base)|)
    ensures n > 0 ==> Digits(n, base) != [] && Pow(base, |Digits(n, base)| - 1) <= n
    decreases n
  {
    Decompose(n, base);
    if n > 0 {
      var m, r := n / base, n % base;
      DigitCount(m, base);
      var d := |Digits(m, base)|;
      Widen(m, r, base, Pow(base, d));
      if m > 0 {
        WidenLower(m, r, base, Pow(base, d - 1));
      }
    }
  }

  lemma Widen(m: nat, r: nat, base: nat, p: nat)
    requires m < p && r < base
    ensures m * base + r < base * p
  {
    assert (m + 1) * base <= p * base;
  }

  lemma WidenLower(m: nat, r: nat, base: nat, p: nat)
    requires p <= m
    ensures base * p <= m * base + r
  {
    assert p * base <= m * base;
  }

  lemma {:induction false} PowMonotone(base: nat, i: nat, j: nat)
    requires base >= 1 && i <= j
    ensures 1 <= Pow(base, i) <= Pow(base, j)
    decreases j
  {
    if i < j {
      PowMonotone(base, i, j - 1);
      assert Pow(base, j - 1) <= base * Pow(base, j - 1);
    } else if j > 0 {
      PowMonotone(base, i - 1, i - 1);
      assert 1 <= base * Pow(base, i - 1);
    }
  }

  /** A numeral of `m` digits without leading zero has a value between two powers. */
  lemma {:induction false} ValueBounds(ds: seq<nat>, base: nat)
    requires base >= 2 && IsNumeral(ds, base)
    ensures Value(ds, base) < Pow(base, |ds|)
    ensures ds != [] && ds[0] != 0 ==> Pow(base, |ds| - 1) <= Value(ds, base)
    decreases |ds|
  {
    if ds != [] {
      var hi := ds[..|ds| - 1];
      ValueBounds(hi, base);
      var lo := ds[|ds| - 1];
      Widen(Value(hi, base), lo, base, Pow(base, |hi|));
      if hi == [] {
        assert ds[0] == lo;
      } else if hi[0] != 0 {
        WidenLower(Value(hi, base), lo, base, Pow(base, |hi| - 1));
      }
    }
  }
}

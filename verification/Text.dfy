/** Characters that stand for digits: hexadecimal, Base58 and Base64 alphabets. */
module Text {
  import opened Wrappers

  function Offset(c: char, base: char): int {
    c as int - base as int
  }

  // ── Hexadecimal ─────────────────────────────────────────────────────

  function HexDigit(n: nat): (c: char)
    requires n < 16
  {
    if n < 10 then ('0' as int + n) as char else ('a' as int + n - 10) as char
  }

  /** Both letter cases are accepted, as the hex decoder does. */
  function HexValue(c: char): (r: Option<nat>)
    ensures r.Some? ==> r.value < 16
  {
    if '0' <= c <= '9' then Some(Offset(c, '0'))
    else if 'a' <= c <= 'f' then Some(Offset(c, 'a') + 10)
    else if 'A' <= c <= 'F' then Some(Offset(c, 'A') + 10)
    else None
  }

  function HexEncode(b: Bytes): (s: string)
    ensures |s| == 2 * |b|
    ensures forall i :: 0 <= i < |s| ==> s[i] == HexDigit(if i % 2 == 0 then b[i / 2] / 16 else b[i / 2] % 16)
  {
    if b == [] then ""
    else
      var t := HexEncode(b[1..]);
      var s := [HexDigit(b[0] / 16), HexDigit(b[0] % 16)] + t;
      assert forall i :: 2 <= i < |s| ==> s[i] == t[i - 2] && b[1..][(i - 2) / 2] == b[i / 2];
      s
  }

  function HexDecode(s: string): Option<Bytes> {
    if s == "" then Some([])
    else if |s| == 1 then None
    else
      match (HexValue(s[0]), HexValue(s[1]), HexDecode(s[2..]))
      case (Some(h), Some(l), Some(t)) => Some([h * 16 + l] + t)
      case _ => None
  }

  lemma {:induction false} HexRoundTrip(b: Bytes)
    ensures HexDecode(HexEncode(b)) == Some(b)
  {
    if b != [] {
      HexRoundTrip(b[1..]);
      var s := HexEncode(b);
      assert s[2..] == HexEncode(b[1..]) by {
        assert s == [HexDigit(b[0] / 16), HexDigit(b[0] % 16)] + HexEncode(b[1..]);
      }
      assert b == [b[0]] + b[1..];
    }
  }

  // ── Letter case ─────────────────────────────────────────────────────

  function Upper(c: char): char {
    if 'a' <= c <= 'z' then (c as int - 32) as char else c
  }

  function Lower(c: char): char {
    if 'A' <= c <= 'Z' then (c as int + 32) as char else c
  }

  function LowerAll(s: string): (r: string)
    ensures |r| == |s| && forall i :: 0 <= i < |s| ==> r[i] == Lower(s[i])
  {
    seq(|s|, i requires 0 <= i < |s| => Lower(s[i]))
  }

  // ── Base58 and Base64 alphabets ─────────────────────────────────────

  /** 123456789 ABCDEFGH JKLMN PQRSTUVWXYZ abcdefghijk mnopqrstuvwxyz: no 0, I, O, l. */
  function Base58Digit(n: nat): char
    requires n < 58
  {
    if n < 9 then ('1' as int + n) as char
    else if n < 17 then ('A' as int + n - 9) as char
    else if n < 22 then ('J' as int + n - 17) as char
    else if n < 33 then ('P' as int + n - 22) as char
    else if n < 44 then ('a' as int + n - 33) as char
    else ('m' as int + n - 44) as char
  }

  function Base58Value(c: char): (r: Option<nat>)
    ensures r.Some? ==> r.value < 58 && Base58Digit(r.value) == c
    ensures r.None? ==> forall n: nat | n < 58 :: Base58Digit(n) != c
  {
    if '1' <= c <= '9' then Some(Offset(c, '1'))
    else if 'A' <= c <= 'H' then Some(Offset(c, 'A') + 9)
    else if 'J' <= c <= 'N' then Some(Offset(c, 'J') + 17)
    else if 'P' <= c <= 'Z' then Some(Offset(c, 'P') + 22)
    else if 'a' <= c <= 'k' then Some(Offset(c, 'a') + 33)
    else if 'm' <= c <= 'z' then Some(Offset(c, 'm') + 44)
    else None
  }

  /** Table 1 of RFC 4648, section 4. */
  function Base64Digit(n: nat): char
    requires n < 64
  {
    if n < 26 then ('A' as int + n) as char
    else if n < 52 then ('a' as int + n - 26) as char
    else if n < 62 then ('0' as int + n - 52) as char
    else if n == 62 then '+' else '/'
  }

  function Base64Value(c: char): (r: Option<nat>)
    ensures r.Some? ==> r.value < 64 && Base64Digit(r.value) == c
    ensures r.None? ==> forall n: nat | n < 64 :: Base64Digit(n) != c
  {
    if 'A' <= c <= 'Z' then Some(Offset(c, 'A'))
    else if 'a' <= c <= 'z' then Some(Offset(c, 'a') + 26)
    else if '0' <= c <= '9' then Some(Offset(c, '0') + 52)
    else if c == '+' then Some(62)
    else if c == '/' then Some(63)
    else None
  }

  lemma DigitsDecode()
    ensures forall n: nat | n < 58 :: Base58Value(Base58Digit(n)) == Some(n)
    ensures forall n: nat | n < 64 :: Base64Value(Base64Digit(n)) == Some(n)
    ensures forall n: nat | n < 64 :: Base64Digit(n) != '='
  {
  }
}

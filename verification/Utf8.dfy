/** UTF-8, as `String::into_bytes` and the strict `String::from_utf8` treat it. */
module Utf8 {
  import opened Wrappers

  function EncodeChar(c: char): (b: Bytes)
    ensures 1 <= |b| <= 4
  {
    var n := c as int;
    if n < 0x80 then [n]
    else if n < 0x800 then [0xC0 + n / 64, 0x80 + n % 64]
    else if n < 0x1_0000 then [0xE0 + n / 64 / 64, 0x80 + n / 64 % 64, 0x80 + n % 64]
    else [0xF0 + n / 64 / 64 / 64, 0x80 + n / 64 / 64 % 64, 0x80 + n / 64 % 64, 0x80 + n % 64]
  }

  /** The code point and length of the character at the head of `s`; shortest forms only. */
  function DecodeChar(s: Bytes): (r: Option<(char, nat)>)
    ensures r.Some? ==> 1 <= r.value.1 <= |s|
  {
    if s == [] then None
    else if s[0] < 0x80 then Some((s[0] as char, 1))
    else if 0xC0 <= s[0] < 0xE0 && |s| >= 2 && Tail(s[1]) then
      InRange(Bits(s[0], 0xC0) * 64 + Bits(s[1], 0x80), 0x80, 2)
    else if 0xE0 <= s[0] < 0xF0 && |s| >= 3 && Tail(s[1]) && Tail(s[2]) then
      InRange((Bits(s[0], 0xE0) * 64 + Bits(s[1], 0x80)) * 64 + Bits(s[2], 0x80), 0x800, 3)
    else if 0xF0 <= s[0] < 0xF8 && |s| >= 4 && Tail(s[1]) && Tail(s[2]) && Tail(s[3]) then
      InRange(((Bits(s[0], 0xF0) * 64 + Bits(s[1], 0x80)) * 64 + Bits(s[2], 0x80)) * 64 + Bits(s[3], 0x80), 0x1_0000, 4)
    else None
  }

  function Bits(b: nat, marker: nat): nat
    requires b >= marker
  {
    b - marker
  }

  predicate Tail(b: byte) {
    0x80 <= b < 0xC0
  }

  function InRange(n: nat, least: nat, len: nat): Option<(char, nat)> {
    if n >= least && (n < 0xD800 || 0xE000 <= n < 0x11_0000) then Some((n as char, len)) else None
  }

  function Encode(s: string): Bytes {
    if s == "" then [] else EncodeChar(s[0]) + Encode(s[1..])
  }

  function Decode(b: Bytes): Option<string>
    decreases |b|
  {
    if b == [] then Some("")
    else
      match DecodeChar(b)
      case None => None
      case Some((c, n)) =>
        match Decode(b[n..])
        case None => None
        case Some(t) => Some([c] + t)
  }

  lemma CharRoundTrip(c: char, rest: Bytes)
    ensures DecodeChar(EncodeChar(c) + rest) == Some((c, |EncodeChar(c)|))
  {
    var n := c as int;
    Split64(n);
    Split64(n / 64);
    Split64(n / 64 / 64);
    var b := EncodeChar(c);
    assert forall i :: 0 <= i < |b| ==> (b + rest)[i] == b[i];
  }

  lemma Split64(n: nat)
    ensures n == n / 64 * 64 + n % 64
  {
  }

  lemma {:induction false} RoundTrip(s: string)
    ensures Decode(Encode(s)) == Some(s)
  {
    if s != "" {
      CharRoundTrip(s[0], Encode(s[1..]));
      assert Encode(s)[|EncodeChar(s[0])|..] == Encode(s[1..]);
      RoundTrip(s[1..]);
      assert s == [s[0]] + s[1..];
    }
  }
}

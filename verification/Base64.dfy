/** Base64 as in section 4 of RFC 4648, with mandatory padding and canonical final bits, which is
    what the standard engine of the base64 library enforces. */
module Base64 {
  import opened Wrappers
  import opened Text

  /** Three bytes as four digits. */
  function EncodeGroup(a: byte, b: byte, c: byte): (s: string)
    ensures |s| == 4
  {
    [Base64Digit(a / 4), Base64Digit(a % 4 * 16 + b / 16), Base64Digit(b % 16 * 4 + c / 64), Base64Digit(c % 64)]
  }

  function DecodeGroup(s: string): Option<(byte, byte, byte)>
    requires |s| == 4
  {
    match (Base64Value(s[0]), Base64Value(s[1]), Base64Value(s[2]), Base64Value(s[3]))
    case (Some(p), Some(q), Some(r), Some(t)) => Some((p * 4 + q / 16, q % 16 * 16 + r / 4, r % 4 * 64 + t))
    case _ => None
  }

  /** The last group when it carries padding; left-over bits must be zero. */
  function DecodePadded(s: string): Option<Bytes>
    requires |s| == 4 && s[3] == '='
  {
    match DecodeGroup([s[0], s[1], if s[2] == '=' then 'A' else s[2], 'A'])
    case None => None
    case Some((a, b, c)) =>
      if s[2] == '=' then
        if b == 0 then Some([a]) else None
      else
        if c == 0 then Some([a, b]) else None
  }

  function Encode(b: Bytes): string {
    if b == [] then ""
    else if |b| == 1 then EncodeGroup(b[0], 0, 0)[..2] + "=="
    else if |b| == 2 then EncodeGroup(b[0], b[1], 0)[..3] + "="
    else EncodeGroup(b[0], b[1], b[2]) + Encode(b[3..])
  }

  function Decode(s: string): Option<Bytes> {
    if s == "" then Some([])
    else if |s| < 4 then None
    else if |s| == 4 && s[3] == '=' then DecodePadded(s)
    else
      match (DecodeGroup(s[..4]), Decode(s[4..]))
      case (Some((a, b, c)), Some(rest)) => Some([a, b, c] + rest)
      case _ => None
  }

  lemma DigitDecodes(n: nat)
    requires n < 64
    ensures Base64Value(Base64Digit(n)) == Some(n) && Base64Digit(n) != '='
  {
  }

  lemma Octets(a: byte, b: byte, c: byte)
    ensures var p, q, r, t := a / 4, a % 4 * 16 + b / 16, b % 16 * 4 + c / 64, c % 64;
            && p < 64 && q < 64 && r < 64
            && p * 4 + q / 16 == a && q % 16 * 16 + r / 4 == b && r % 4 * 64 + t == c
  {
  }

  lemma GroupEncodes(a: byte, b: byte, c: byte)
    ensures DecodeGroup(EncodeGroup(a, b, c)) == Some((a, b, c))
    ensures forall i :: 0 <= i < 4 ==> EncodeGroup(a, b, c)[i] != '='
  {
    Octets(a, b, c);
    DigitDecodes(a / 4);
    DigitDecodes(a % 4 * 16 + b / 16);
    DigitDecodes(b % 16 * 4 + c / 64);
    DigitDecodes(c % 64);
  }

  lemma Sextets(p: nat, q: nat, r: nat, t: nat)
    requires p < 64 && q < 64 && r < 64 && t < 64
    ensures var b0, b1, b2 := p * 4 + q / 16, q % 16 * 16 + r / 4, r % 4 * 64 + t;
            && b0 < 256 && b1 < 256 && b2 < 256
            && b0 / 4 == p && b0 % 4 * 16 + b1 / 16 == q && b1 % 16 * 4 + b2 / 64 == r && b2 % 64 == t
  {
  }

  lemma GroupDecodes(s: string)
    requires |s| == 4 && DecodeGroup(s).Some?
    ensures var g := DecodeGroup(s).value; EncodeGroup(g.0, g.1, g.2) == s
  {
    hide Base64Digit, Base64Value;
    var p, q, r, t := Base64Value(s[0]).value, Base64Value(s[1]).value, Base64Value(s[2]).value, Base64Value(s[3]).value;
    Sextets(p, q, r, t);
    assert [Base64Digit(p), Base64Digit(q), Base64Digit(r), Base64Digit(t)] == s;
  }

  lemma PaddingDigit(a: byte, b: byte)
    ensures EncodeGroup(a, b, 0)[3] == 'A'
    ensures b == 0 ==> EncodeGroup(a, b, 0)[2] == 'A'
  {
  }

  lemma PaddedEncodes(b: Bytes)
    requires |b| == 1 || |b| == 2
    ensures Decode(Encode(b)) == Some(b)
  {
    var second := if |b| == 2 then b[1] else 0;
    var full := EncodeGroup(b[0], second, 0);
    GroupEncodes(b[0], second, 0);
    PaddingDigit(b[0], second);
    var s := Encode(b);
    assert s[0] == full[0] && s[1] == full[1] && s[3] == '=' && |s| == 4;
    assert s[2] == if |b| == 2 then full[2] else '=';
    assert full == [s[0], s[1], if s[2] == '=' then 'A' else s[2], 'A'];
    assert b == if |b| == 1 then [b[0]] else [b[0], b[1]];
  }

  lemma PaddedDecodes(s: string)
    requires |s| == 4 && s[3] == '=' && DecodePadded(s).Some?
    ensures Encode(DecodePadded(s).value) == s
  {
    hide Base64Digit, Base64Value;
    var full := [s[0], s[1], if s[2] == '=' then 'A' else s[2], 'A'];
    GroupDecodes(full);
    var b := DecodePadded(s).value;
    assert full[..2] == s[..2] && (s[2] != '=' ==> full[..3] == s[..3]);
    assert s == s[..2] + [s[2], '='];
    assert s == s[..3] + ['='];
  }

  lemma {:induction false} DecodeEncode(b: Bytes)
    ensures Decode(Encode(b)) == Some(b)
  {
    if |b| == 1 || |b| == 2 {
      PaddedEncodes(b);
    } else if |b| >= 3 {
      GroupEncodes(b[0], b[1], b[2]);
      DecodeEncode(b[3..]);
      var s := Encode(b);
      assert s[..4] == EncodeGroup(b[0], b[1], b[2]) && s[4..] == Encode(b[3..]);
      assert s[3] == s[..4][3];
      assert b == [b[0], b[1], b[2]] + b[3..];
    }
  }

  lemma {:induction false} EncodeDecode(s: string)
    requires Decode(s).Some?
    ensures Encode(Decode(s).value) == s
    decreases |s|
  {
    if |s| == 4 && s[3] == '=' {
      PaddedDecodes(s);
    } else if |s| >= 4 {
      GroupDecodes(s[..4]);
      EncodeDecode(s[4..]);
      var b := Decode(s).value;
      assert b[3..] == Decode(s[4..]).value;
      assert s == s[..4] + s[4..];
    }
  }

  /** A string decodes exactly when it is the encoding of some bytes, and then to those bytes. */
  lemma DecodesIff(s: string, b: Bytes)
    ensures Decode(s) == Some(b) <==> s == Encode(b)
  {
    DecodeEncode(b);
    if Decode(s).Some? { EncodeDecode(s); }
  }
}

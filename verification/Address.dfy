/** Solana (Base58) and EVM (EIP-55) addresses. */
module Address {
  import opened Wrappers
  import opened ModArith
  import opened Numerals
  import opened Text

  // ── Base58 ──────────────────────────────────────────────────────────

  function Base58Encode(b: Bytes): string {
    var ds := Convert(b, 256, 58);
    seq(|ds|, i requires 0 <= i < |ds| => Base58Digit(ds[i]))
  }

  function Base58Digits(s: string): (r: Option<seq<nat>>)
    ensures r.Some? ==> IsNumeral(r.value, 58)
  {
    if s == "" then Some([])
    else
      match (Base58Value(s[0]), Base58Digits(s[1..]))
      case (Some(d), Some(t)) => Some([d] + t)
      case _ => None
  }

  function Base58Decode(s: string): Option<Bytes> {
    match Base58Digits(s)
    case None => None
    case Some(ds) =>
      var out := Convert(ds, 58, 256);
      Some(seq(|out|, i requires 0 <= i < |out| => out[i]))
  }

  lemma {:induction false} DigitsOfChars(ds: seq<nat>, s: string)
    requires IsNumeral(ds, 58) && |s| == |ds|
    requires forall i :: 0 <= i < |s| ==> s[i] == Base58Digit(ds[i])
    ensures Base58Digits(s) == Some(ds)
    decreases |s|
  {
    if s != "" {
      DigitsDecode();
      hide Base58Digit, Base58Value;
      DigitsOfChars(ds[1..], s[1..]);
      assert ds == [ds[0]] + ds[1..];
    }
  }

  lemma Base58RoundTrip(b: Bytes)
    ensures Base58Decode(Base58Encode(b)) == Some(b)
  {
    var ds: seq<nat> := b;
    var out := Convert(ds, 256, 58);
    DigitsOfChars(out, Base58Encode(b));
    ConvertRoundTrip(ds, 256, 58);
    var back := Convert(out, 58, 256);
    assert back == ds;
    assert seq(|back|, i requires 0 <= i < |back| => back[i]) == ds;
  }

  // ── Solana ──────────────────────────────────────────────────────────

  function DeriveSolanaAddress(key: Bytes): Result<string, string> {
    if |key| != 32 then Err("Solana pubkey must be exactly 32 bytes") else Ok(Base58Encode(key))
  }

  /** An address determines its key, leading zero bytes included. */
  lemma SolanaAddressDecodes(key: Bytes)
    ensures DeriveSolanaAddress(key).Ok? <==> |key| == 32
    ensures |key| == 32 ==> Base58Decode(DeriveSolanaAddress(key).value) == Some(key)
  {
    Base58RoundTrip(key);
  }

  lemma SolanaAddressesDistinct(a: Bytes, b: Bytes)
    requires DeriveSolanaAddress(a).Ok? && DeriveSolanaAddress(a) == DeriveSolanaAddress(b)
    ensures a == b
  {
    SolanaAddressDecodes(a);
    SolanaAddressDecodes(b);
  }

  lemma SolanaAddressLength(key: Bytes)
    requires |key| == 32
    ensures 32 <= |DeriveSolanaAddress(key).value| <= 44
  {
    var ds: seq<nat> := key;
    var z := LeadingZeros(ds);
    var rest := Split(ds);
    assert IsNumeral(rest, 256) by { assert forall i :: 0 <= i < |rest| ==> rest[i] == ds[z + i]; }
    ValueSkipsZeros(z, rest, 256);
    Base58Width(rest);
  }

  /** Up to 32 bytes without leading zero become at least as many and at most 12 more digits. */
  lemma Base58Width(rest: seq<nat>)
    requires IsNumeral(rest, 256) && |rest| <= 32 && (rest != [] ==> rest[0] != 0)
    ensures |rest| <= |Digits(Value(rest, 256), 58)| <= |rest| + 12
  {
    var n, m := Value(rest, 256), |rest|;
    var d := |Digits(n, 58)|;
    ValueBounds(rest, 256);
    DigitCount(n, 58);
    if m > 0 {
      PowMonotone(256, 0, m - 1);
      SmallerBase(m - 1);
      PowCompare(m - 1, d);
      WidthOf58(m);
      PowCompare(d - 1, m + 12);
    }
  }

  lemma {:induction false} SmallerBase(k: nat)
    ensures Pow(58, k) <= Pow(256, k)
  {
    if k > 0 { SmallerBase(k - 1); }
  }

  lemma PowCompare(i: nat, j: nat)
    requires Pow(58, i) < Pow(58, j)
    ensures i < j
  {
    if j <= i { PowMonotone(58, j, i); }
  }

  lemma {:induction false} PowAdd(b: nat, i: nat, j: nat)
    ensures Pow(b, i + j) == Pow(b, i) * Pow(b, j)
  {
    if i > 0 {
      PowAdd(b, i - 1, j);
      assert Pow(b, i + j) == b * Pow(b, i - 1 + j);
      Associates(b, Pow(b, i - 1), Pow(b, j));
    }
  }

  lemma Associates(a: nat, b: nat, c: nat)
    ensures a * (b * c) == a * b * c
  {
  }

  lemma SquareMonotone(p: nat, q: nat)
    requires p <= q
    ensures p * p <= q * q
  {
  }

  lemma DoubleWidth(i: nat, j: nat)
    requires Pow(256, i) <= Pow(58, j)
    ensures Pow(256, i + i) <= Pow(58, j + j)
  {
    PowAdd(256, i, i);
    PowAdd(58, j, j);
    SquareMonotone(Pow(256, i), Pow(58, j));
  }

  /** m bytes never need more than m + 12 Base58 digits, up to 32 bytes. */
  lemma {:induction false} WidthOf58(m: nat)
    requires m <= 32
    ensures Pow(256, m) <= Pow(58, m + 12)
    decreases 32 - m
  {
    if m == 32 {
      assert Pow(256, 8) <= Pow(58, 11);
      DoubleWidth(8, 11);
      DoubleWidth(16, 22);
    } else {
      WidthOf58(m + 1);
      Narrow(Pow(256, m), Pow(58, m + 12));
    }
  }

  lemma Narrow(p: nat, q: nat)
    requires 256 * p <= 58 * q
    ensures p <= q
  {
  }

  // ── EVM ─────────────────────────────────────────────────────────────

  function Ascii(s: string): (b: Bytes)
    requires forall i :: 0 <= i < |s| ==> s[i] < 128 as char
  {
    seq(|s|, i requires 0 <= i < |s| => s[i] as int)
  }

  predicate IsHex(s: string) {
    forall i :: 0 <= i < |s| ==> '0' <= s[i] <= '9' || 'a' <= s[i] <= 'f'
  }

  /** Nibble i of a hash, high nibble first. */
  function Nibble(hash: Bytes, i: nat): (n: nat)
    requires i / 2 < |hash|
    ensures n < 16
  {
    if i % 2 == 0 then hash[i / 2] / 16 else hash[i / 2] % 16
  }

  /** The EIP-55 capitalisation of 40 lower-case hex digits. */
  function Checksummed(keccak: Bytes -> Bytes, lower: string): (s: string)
    requires forall b :: |keccak(b)| == 32
    requires IsHex(lower) && |lower| == 40
    ensures |s| == 40
  {
    var hash := keccak(Ascii(lower));
    seq(40, i requires 0 <= i < 40 => if Nibble(hash, i) >= 8 then Upper(lower[i]) else lower[i])
  }

  lemma EncodedIsHex(b: Bytes)
    ensures IsHex(HexEncode(b))
  {
  }

  /** The character at `i` is what one turn of the loop below pushes. */
  lemma ChecksummedAt(keccak: Bytes -> Bytes, lower: string, i: nat)
    requires forall b :: |keccak(b)| == 32
    requires IsHex(lower) && |lower| == 40 && i < 40
    ensures var b := keccak(Ascii(lower))[i / 2];
            Checksummed(keccak, lower)[i] == if (if i % 2 == 0 then b / 16 else b % 16) >= 8 then Upper(lower[i]) else lower[i]
  {
  }

  lemma OneMore(s: string, i: nat)
    requires i < |s|
    ensures "0x" + s[..i] + [s[i]] == "0x" + s[..i + 1]
  {
  }

  /** The loop of `derive_evm_address` over the hex digits. */
  method Capitalise(keccak: Bytes -> Bytes, hexAddr: string) returns (checksummed: string)
    requires forall b :: |keccak(b)| == 32
    requires IsHex(hexAddr) && |hexAddr| == 40
    ensures checksummed == "0x" + Checksummed(keccak, hexAddr)
  {
    var checksumHash := keccak(Ascii(hexAddr));
    ghost var goal := Checksummed(keccak, hexAddr);
    checksummed := "0x";
    assert goal[..0] == "" && goal[..40] == goal;
    hide IsHex, Ascii, Checksummed;
    var i := 0;
    while i < |hexAddr|
      invariant 0 <= i <= |hexAddr| && checksummed == "0x" + goal[..i]
    {
      var c := hexAddr[i];
      var b := checksumHash[i / 2];
      var nibble := if i % 2 == 0 then b / 16 else b % 16;
      ChecksummedAt(keccak, hexAddr, i);
      OneMore(goal, i);
      checksummed := checksummed + [if nibble >= 8 then Upper(c) else c];
      i := i + 1;
    }
  }

  /** `derive_evm_address`, with the hash function as a parameter. */
  method DeriveEvmAddress(key: Bytes, keccak: Bytes -> Bytes) returns (r: Result<string, string>)
    requires forall b :: |keccak(b)| == 32
    ensures r.Ok? <==> |key| == 65 && key[0] == 4
    ensures r.Ok? ==>
              var hex := HexEncode(keccak(key[1..])[12..]);
              && |r.value| == 42 && r.value[..2] == "0x"
              && IsHex(hex) && r.value[2..] == Checksummed(keccak, hex)
  {
    if |key| != 65 || key[0] != 4 {
      return Err("Expected 65-byte uncompressed public key with 0x04 prefix");
    }
    var hash := keccak(key[1..]);
    var hexAddr := HexEncode(hash[12..]);
    EncodedIsHex(hash[12..]);
    hide HexEncode, IsHex, Checksummed;
    var checksummed := Capitalise(keccak, hexAddr);
    r := Ok(checksummed);
  }

  /** A string whose capitalisation is the EIP-55 one for its own digits. */
  ghost predicate IsEip55(keccak: Bytes -> Bytes, s: string)
    requires forall b :: |keccak(b)| == 32
  {
    |s| == 40 && IsHex(LowerAll(s)) && s == Checksummed(keccak, LowerAll(s))
  }

  /** Lower-casing undoes the capitalisation, so checksumming again is the identity; and a letter
      is upper-case exactly when its hash nibble is at least 8. */
  lemma ChecksumIdempotent(keccak: Bytes -> Bytes, lower: string)
    requires forall b :: |keccak(b)| == 32
    requires IsHex(lower) && |lower| == 40
    ensures LowerAll(Checksummed(keccak, lower)) == lower
    ensures IsEip55(keccak, Checksummed(keccak, lower))
    ensures forall i :: 0 <= i < 40 && 'a' <= lower[i] <= 'f' ==>
              ('A' <= Checksummed(keccak, lower)[i] <= 'F' <==> Nibble(keccak(Ascii(lower)), i) >= 8)
  {
    assert LowerAll(Checksummed(keccak, lower)) == lower;
  }

  /** Among all capitalisations of the same digits exactly one passes the check. */
  lemma OneCapitalisationPasses(keccak: Bytes -> Bytes, lower: string, s: string)
    requires forall b :: |keccak(b)| == 32
    requires IsHex(lower) && |lower| == 40 && LowerAll(s) == lower
    ensures IsEip55(keccak, s) <==> s == Checksummed(keccak, lower)
  {
    ChecksumIdempotent(keccak, lower);
  }
}

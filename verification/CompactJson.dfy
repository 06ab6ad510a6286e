/** The compact JSON text of a version-2 share envelope, as the serialiser writes it, and a reader
    for exactly that text.  It shows that the reading-back assumption of `Envelope` is met. */
module CompactJson {
  import opened Wrappers
  import opened Envelope
  import Base64

  const HEAD := "{\"v\":2,\"curve\":\""
  const MIDDLE := "\",\"share\":\""
  const TAIL := "\"}"

  function ToBytes(s: string): (b: Bytes)
    ensures |b| == |s|
  {
    seq(|s|, i requires 0 <= i < |s| => s[i] as int % 256)
  }

  function FromBytes(b: Bytes): (s: string)
    ensures |s| == |b|
  {
    seq(|b|, i requires 0 <= i < |b| => b[i] as char)
  }

  function Write(e: ShareEnvelope): Bytes {
    ToBytes(HEAD + (e.curve + (MIDDLE + (e.share + TAIL))))
  }

  /** The text up to the first quote, and the rest from that quote on. */
  function UntilQuote(s: string): (string, string) {
    if s == "" || s[0] == '"' then ("", s)
    else
      var (a, rest) := UntilQuote(s[1..]);
      ([s[0]] + a, rest)
  }

  function Read(b: Bytes): Option<ShareEnvelope> {
    var s := FromBytes(b);
    if !(HEAD <= s) then None
    else
      var (curve, rest) := UntilQuote(s[|HEAD|..]);
      if !(MIDDLE <= rest) then None
      else
        var (share, end) := UntilQuote(rest[|MIDDLE|..]);
        if end == TAIL then Some(ShareEnvelope(2, curve, share)) else None
  }

  predicate Plain(s: string) {
    forall i :: 0 <= i < |s| ==> s[i] != '"' && s[i] as int < 256
  }

  lemma {:induction false} UntilQuoteStops(a: string, rest: string)
    requires Plain(a) && rest != "" && rest[0] == '"'
    ensures UntilQuote(a + rest) == (a, rest)
  {
    if a == "" {
      assert a + rest == rest;
    } else {
      assert (a + rest)[1..] == a[1..] + rest;
      UntilQuoteStops(a[1..], rest);
      assert a == [a[0]] + a[1..];
    }
  }

  lemma BytesBack(s: string)
    requires forall i :: 0 <= i < |s| ==> s[i] as int < 256
    ensures FromBytes(ToBytes(s)) == s
  {
    assert forall i :: 0 <= i < |s| ==> FromBytes(ToBytes(s))[i] == s[i];
  }

  lemma ReadWrite(e: ShareEnvelope)
    requires e.v == 2 && Plain(e.curve) && Plain(e.share)
    ensures Read(Write(e)) == Some(e)
  {
    var afterShare := e.share + TAIL;
    var afterCurve := MIDDLE + afterShare;
    var body := e.curve + afterCurve;
    var text := HEAD + body;
    BytesBack(text);
    assert text[|HEAD|..] == body;
    UntilQuoteStops(e.curve, afterCurve);
    assert afterCurve[|MIDDLE|..] == afterShare;
    UntilQuoteStops(e.share, TAIL);
  }

  lemma {:induction false} EncodingIsPlain(b: Bytes)
    ensures Plain(Base64.Encode(b))
  {
    if |b| >= 3 { EncodingIsPlain(b[3..]); }
  }

  /** The compact writer and reader satisfy what `Envelope` asks of a JSON library. */
  lemma CompactReadsBack()
    ensures ReadsBackShares(Json(Write, Read))
  {
    forall c: Curve, b: Bytes ensures Read(Write(NewShare(c, b))) == Some(NewShare(c, b)) {
      EncodingIsPlain(b);
      ReadWrite(NewShare(c, b));
    }
  }

  /** Share envelopes in compact JSON round-trip, without any assumption. */
  lemma CompactShareRoundTrip(c: Curve, b: Bytes)
    ensures DecodeShare(Json(Write, Read), EncodeShare(Json(Write, Read), NewShare(c, b))) == Ok((c, b))
  {
    CompactReadsBack();
    ShareRoundTrip(Json(Write, Read), c, b);
  }
}

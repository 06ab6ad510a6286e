/** The serialisation codec of the foreign-function bridge, as encoders and decoders of byte
    sequences.  A decoder returns the value and the bytes it did not use; `Failed` stands for the
    panic of the code. */
module Sse {
  import opened Wrappers
  import opened Envelope
  import Utf8

  datatype Parsed<+T> = Failed | Got(value: T, rest: Bytes) {
    predicate IsFailure() { Failed? }
    function PropagateFailure<U>(): Parsed<U> requires Failed? { Failed }
    function Extract(): (T, Bytes) requires Got? { (value, rest) }
  }

  datatype Order = Little | Big

  /** The byte order of the machine; everything below holds for either. */
  const NATIVE: Order

  /** Decoding an encoding followed by anything gives the value and leaves exactly the rest. */
  ghost predicate Faithful<T(!new)>(enc: T -> Bytes, dec: Bytes -> Parsed<T>, ok: T -> bool) {
    forall x, rest :: ok(x) ==> dec(enc(x) + rest) == Got(x, rest)
  }

  // ── Primitive types ─────────────────────────────────────────────────

  const TWO31: int := 0x8000_0000
  const TWO32: int := 0x1_0000_0000

  predicate IsI32(n: int) { -TWO31 <= n < TWO31 }

  /** `as i32`: the low 32 bits, read as two's complement. */
  function Wrap32(n: int): (r: int)
    ensures IsI32(r)
    ensures IsI32(n) ==> r == n
  {
    (n + TWO31) % TWO32 - TWO31
  }

  function EncU8(b: byte): Bytes { [b] }

  function DecU8(s: Bytes): Parsed<byte> { if s == [] then Failed else Got(s[0], s[1..]) }

  function EncBool(b: bool): Bytes { [if b then 1 else 0] }

  function DecBool(s: Bytes): Parsed<bool> { if s == [] then Failed else Got(s[0] != 0, s[1..]) }

  function Bytes4(u: nat): (b: Bytes)
    requires u < TWO32
    ensures |b| == 4
  {
    [u % 256, u / 256 % 256, u / 65536 % 256, u / 16777216]
  }

  function Word32(a: nat, b: nat, c: nat, d: nat): nat {
    a + b * 256 + c * 65536 + d * 16777216
  }

  function EncI32(n: int): (b: Bytes)
    ensures |b| == 4
  {
    var b := Bytes4(n % TWO32);
    if NATIVE.Little? then b else [b[3], b[2], b[1], b[0]]
  }

  function DecI32(s: Bytes): (r: Parsed<int>)
    ensures r.Got? ==> IsI32(r.value)
  {
    if |s| < 4 then Failed
    else Got(Wrap32(if NATIVE.Little? then Word32(s[0], s[1], s[2], s[3]) else Word32(s[3], s[2], s[1], s[0])), s[4..])
  }

  // ── Lists and options ───────────────────────────────────────────────

  function EncAll<T>(enc: T -> Bytes, xs: seq<T>): Bytes {
    if xs == [] then [] else enc(xs[0]) + EncAll(enc, xs[1..])
  }

  function EncList<T>(enc: T -> Bytes, xs: seq<T>): Bytes {
    EncI32(Wrap32(|xs|)) + EncAll(enc, xs)
  }

  function DecN<T>(dec: Bytes -> Parsed<T>, n: nat, s: Bytes): (r: Parsed<seq<T>>)
    ensures r.Got? ==> |r.value| == n
  {
    if n == 0 then Got([], s)
    else
      var (x, s1) :- dec(s);
      var (xs, s2) :- DecN(dec, n - 1, s1);
      Got([x] + xs, s2)
  }

  /** A list is its length as an i32 and its elements; a negative length panics. */
  function DecList<T>(dec: Bytes -> Parsed<T>, s: Bytes): Parsed<seq<T>> {
    var (n, s1) :- DecI32(s);
    if n < 0 then Failed else DecN(dec, n, s1)
  }

  function EncOption<T>(enc: T -> Bytes, v: Option<T>): Bytes {
    match v case None => EncBool(false) case Some(x) => EncBool(true) + enc(x)
  }

  function DecOption<T>(dec: Bytes -> Parsed<T>, s: Bytes): Parsed<Option<T>> {
    var (some, s1) :- DecBool(s);
    if !some then Got(None, s1)
    else
      var (x, s2) :- dec(s1);
      Got(Some(x), s2)
  }

  // ── The listed types ────────────────────────────────────────────────

  function EncBytes(b: Bytes): Bytes { EncList(EncU8, b) }

  function DecBytes(s: Bytes): Parsed<Bytes> { DecList(DecU8, s) }

  function EncByteLists(v: seq<Bytes>): Bytes { EncList(EncBytes, v) }

  function DecByteLists(s: Bytes): Parsed<seq<Bytes>> { DecList(DecBytes, s) }

  function EncStr(s: string): Bytes { EncBytes(Utf8.Encode(s)) }

  function DecStr(s: Bytes): Parsed<string> {
    var (b, s1) :- DecBytes(s);
    match Utf8.Decode(b) case None => Failed case Some(t) => Got(t, s1)
  }

  function EncStrs(v: seq<string>): Bytes { EncList(EncStr, v) }

  function DecStrs(s: Bytes): Parsed<seq<string>> { DecList(DecStr, s) }

  /** `[u8; 32]`, also the representation of a `MessageDigest`; any other length panics. */
  function DecArray32(s: Bytes): Parsed<Bytes> {
    var (b, s1) :- DecBytes(s);
    if |b| == 32 then Got(b, s1) else Failed
  }

  function EncCurve(c: Curve): Bytes { EncI32(match c case Secp256k1 => 0 case Ed25519 => 1) }

  function DecCurve(s: Bytes): Parsed<Curve> {
    var (n, s1) :- DecI32(s);
    if n == 0 then Got(Secp256k1, s1) else if n == 1 then Got(Ed25519, s1) else Failed
  }

  function EncProtocol(p: Protocol): Bytes { EncI32(match p case Dkg => 0 case Dsg => 1 case Rotation => 2) }

  function DecProtocol(s: Bytes): Parsed<Protocol> {
    var (n, s1) :- DecI32(s);
    if n == 0 then Got(Dkg, s1) else if n == 1 then Got(Dsg, s1) else if n == 2 then Got(Rotation, s1) else Failed
  }

  function EncCurveBytes(p: (Curve, Bytes)): Bytes { EncCurve(p.0) + EncBytes(p.1) }

  function DecCurveBytes(s: Bytes): Parsed<(Curve, Bytes)> {
    var (c, s1) :- DecCurve(s);
    var (b, s2) :- DecBytes(s1);
    Got((c, b), s2)
  }

  function EncShare(e: ShareEnvelope): Bytes { EncU8(e.v) + (EncStr(e.curve) + EncStr(e.share)) }

  function DecShare(s: Bytes): Parsed<ShareEnvelope> {
    var (v, s1) :- DecU8(s);
    var (curve, s2) :- DecStr(s1);
    var (share, s3) :- DecStr(s2);
    Got(ShareEnvelope(v, curve, share), s3)
  }

  /** The ten fields of a wire envelope, in two groups. */
  datatype Routing = Routing(sessionId: string, protocol: Protocol, round: byte, fromId: byte, toId: Option<byte>)

  datatype Content = Content(encoding: string, payload: string, step: Option<string>,
                             payloads: Option<seq<string>>, curve: Option<string>)

  function RoutingOf(e: WireEnvelope): Routing { Routing(e.sessionId, e.protocol, e.round, e.fromId, e.toId) }

  function ContentOf(e: WireEnvelope): Content { Content(e.payloadEncoding, e.payload, e.step, e.payloads, e.curve) }

  function Join(r: Routing, c: Content): WireEnvelope {
    WireEnvelope(r.sessionId, r.protocol, r.round, r.fromId, r.toId, c.encoding, c.payload, c.step, c.payloads, c.curve)
  }

  function EncRouting(r: Routing): Bytes {
    EncStr(r.sessionId) + (EncProtocol(r.protocol) + (EncU8(r.round) + (EncU8(r.fromId) + EncOption(EncU8, r.toId))))
  }

  function DecRouting(s: Bytes): Parsed<Routing> {
    var (sessionId, s1) :- DecStr(s);
    var (protocol, s2) :- DecProtocol(s1);
    var (round, s3) :- DecU8(s2);
    var (fromId, s4) :- DecU8(s3);
    var (toId, s5) :- DecOption(DecU8, s4);
    Got(Routing(sessionId, protocol, round, fromId, toId), s5)
  }

  function EncContent(c: Content): Bytes {
    EncStr(c.encoding) + (EncStr(c.payload) + (EncOption(EncStr, c.step)
      + (EncOption(EncStrs, c.payloads) + EncOption(EncStr, c.curve))))
  }

  function DecContent(s: Bytes): Parsed<Content> {
    var (encoding, s1) :- DecStr(s);
    var (payload, s2) :- DecStr(s1);
    var (step, s3) :- DecOption(DecStr, s2);
    var (payloads, s4) :- DecOption(DecStrs, s3);
    var (curve, s5) :- DecOption(DecStr, s4);
    Got(Content(encoding, payload, step, payloads, curve), s5)
  }

  function EncWire(e: WireEnvelope): Bytes { EncRouting(RoutingOf(e)) + EncContent(ContentOf(e)) }

  function DecWire(s: Bytes): Parsed<WireEnvelope> {
    var (r, s1) :- DecRouting(s);
    var (c, s2) :- DecContent(s1);
    Got(Join(r, c), s2)
  }

  // ── Round trips of the building blocks ──────────────────────────────

  lemma U8RoundTrip(b: byte, rest: Bytes)
    ensures DecU8(EncU8(b) + rest) == Got(b, rest)
  {
    assert ([b] + rest)[1..] == rest;
  }

  lemma BoolRoundTrip(b: bool, rest: Bytes)
    ensures DecBool(EncBool(b) + rest) == Got(b, rest)
  {
    assert (EncBool(b) + rest)[1..] == rest;
  }

  lemma Quotients(u: nat)
    ensures u / 65536 == u / 256 / 256 && u / 16777216 == u / 65536 / 256
  {
  }

  lemma Word(u: nat)
    requires u < TWO32
    ensures var b := Bytes4(u); Word32(b[0], b[1], b[2], b[3]) == u
  {
    Quotients(u);
    var v, w := u / 256, u / 65536;
    assert u == v * 256 + u % 256;
    assert v == w * 256 + v % 256;
    assert w == u / 16777216 * 256 + w % 256;
  }

  lemma Unwrap(n: int)
    requires IsI32(n)
    ensures Wrap32(n % TWO32) == n
  {
  }

  lemma I32RoundTrip(n: int, rest: Bytes)
    requires IsI32(n)
    ensures DecI32(EncI32(n) + rest) == Got(n, rest)
  {
    var b := EncI32(n);
    assert (b + rest)[4..] == rest;
    assert forall i :: 0 <= i < 4 ==> (b + rest)[i] == b[i];
    Word(n % TWO32);
    Unwrap(n);
  }

  lemma Chain(a: Bytes, b: Bytes, rest: Bytes)
    ensures (a + b) + rest == a + (b + rest)
  {
  }

  lemma {:induction false} ElementsRoundTrip<T(!new)>(
      enc: T -> Bytes, dec: Bytes -> Parsed<T>, ok: T -> bool, xs: seq<T>, rest: Bytes)
    requires Faithful(enc, dec, ok) && forall i :: 0 <= i < |xs| ==> ok(xs[i])
    ensures DecN(dec, |xs|, EncAll(enc, xs) + rest) == Got(xs, rest)
    decreases |xs|
  {
    if xs == [] {
      assert EncAll(enc, xs) + rest == rest;
    } else {
      var tail := EncAll(enc, xs[1..]) + rest;
      assert EncAll(enc, xs) + rest == enc(xs[0]) + tail;
      ElementsRoundTrip(enc, dec, ok, xs[1..], rest);
      assert xs == [xs[0]] + xs[1..];
    }
  }

  predicate ListOk<T>(ok: T -> bool, xs: seq<T>) {
    |xs| < TWO31 && forall i :: 0 <= i < |xs| ==> ok(xs[i])
  }

  lemma ListRoundTrip<T(!new)>(enc: T -> Bytes, dec: Bytes -> Parsed<T>, ok: T -> bool, xs: seq<T>, rest: Bytes)
    requires Faithful(enc, dec, ok) && ListOk(ok, xs)
    ensures DecList(dec, EncList(enc, xs) + rest) == Got(xs, rest)
  {
    var head, body := EncI32(|xs|), EncAll(enc, xs);
    assert head + body + rest == head + (body + rest);
    I32RoundTrip(|xs|, body + rest);
    ElementsRoundTrip(enc, dec, ok, xs, rest);
  }

  lemma OptionRoundTrip<T(!new)>(enc: T -> Bytes, dec: Bytes -> Parsed<T>, ok: T -> bool, v: Option<T>, rest: Bytes)
    requires Faithful(enc, dec, ok) && (v.Some? ==> ok(v.value))
    ensures DecOption(dec, EncOption(enc, v) + rest) == Got(v, rest)
  {
    match v
    case None => BoolRoundTrip(false, rest);
    case Some(x) =>
      BoolRoundTrip(true, enc(x) + rest);
      assert EncBool(true) + enc(x) + rest == EncBool(true) + (enc(x) + rest);
  }

  // ── The listed types round-trip ─────────────────────────────────────

  predicate OkByte(b: byte) { true }
  predicate OkBytes(b: Bytes) { |b| < TWO31 }
  predicate OkStr(s: string) { |Utf8.Encode(s)| < TWO31 }
  predicate OkStrs(v: seq<string>) { ListOk(OkStr, v) }
  predicate OkCurveBytes(p: (Curve, Bytes)) { OkBytes(p.1) }
  predicate OkShare(e: ShareEnvelope) { OkStr(e.curve) && OkStr(e.share) }
  predicate OkWire(e: WireEnvelope) {
    && OkStr(e.sessionId) && OkStr(e.payloadEncoding) && OkStr(e.payload)
    && (e.step.Some? ==> OkStr(e.step.value)) && (e.curve.Some? ==> OkStr(e.curve.value))
    && (e.payloads.Some? ==> OkStrs(e.payloads.value))
  }

  lemma ByteFaithful()
    ensures Faithful(EncU8, DecU8, OkByte)
  {
    forall b: byte, rest ensures DecU8(EncU8(b) + rest) == Got(b, rest) { U8RoundTrip(b, rest); }
  }

  lemma BytesFaithful()
    ensures Faithful(EncBytes, DecBytes, OkBytes)
  {
    ByteFaithful();
    forall b, rest | OkBytes(b) ensures DecBytes(EncBytes(b) + rest) == Got(b, rest) {
      ListRoundTrip(EncU8, DecU8, OkByte, b, rest);
    }
  }

  lemma StrFaithful()
    ensures Faithful(EncStr, DecStr, OkStr)
  {
    BytesFaithful();
    forall s, rest | OkStr(s) ensures DecStr(EncStr(s) + rest) == Got(s, rest) {
      Utf8.RoundTrip(s);
    }
  }

  lemma StrsFaithful()
    ensures Faithful(EncStrs, DecStrs, OkStrs)
  {
    StrFaithful();
    forall v, rest | OkStrs(v) ensures DecStrs(EncStrs(v) + rest) == Got(v, rest) {
      ListRoundTrip(EncStr, DecStr, OkStr, v, rest);
    }
  }

  lemma ByteListsRoundTrip(v: seq<Bytes>, rest: Bytes)
    requires ListOk(OkBytes, v)
    ensures DecByteLists(EncByteLists(v) + rest) == Got(v, rest)
  {
    BytesFaithful();
    ListRoundTrip(EncBytes, DecBytes, OkBytes, v, rest);
  }

  lemma Array32RoundTrip(b: Bytes, rest: Bytes)
    ensures DecArray32(EncBytes(b) + rest) == Got(b, rest) <==> |b| == 32
  {
    BytesFaithful();
    assert |b| == 32 ==> OkBytes(b);
  }

  lemma CurveRoundTrip(c: Curve, rest: Bytes)
    ensures DecCurve(EncCurve(c) + rest) == Got(c, rest)
  {
    I32RoundTrip(match c case Secp256k1 => 0 case Ed25519 => 1, rest);
  }

  lemma ProtocolRoundTrip(p: Protocol, rest: Bytes)
    ensures DecProtocol(EncProtocol(p) + rest) == Got(p, rest)
  {
    I32RoundTrip(match p case Dkg => 0 case Dsg => 1 case Rotation => 2, rest);
  }

  lemma CurveBytesRoundTrip(p: (Curve, Bytes), rest: Bytes)
    requires OkCurveBytes(p)
    ensures DecCurveBytes(EncCurveBytes(p) + rest) == Got(p, rest)
  {
    BytesFaithful();
    assert DecBytes(EncBytes(p.1) + rest) == Got(p.1, rest);
    CurveRoundTrip(p.0, EncBytes(p.1) + rest);
    hide EncBytes, DecBytes, EncCurve, DecCurve;
    Chain(EncCurve(p.0), EncBytes(p.1), rest);
  }

  lemma ShareRoundTrip(e: ShareEnvelope, rest: Bytes)
    requires OkShare(e)
    ensures DecShare(EncShare(e) + rest) == Got(e, rest)
  {
    StrFaithful();
    var v, c, h := EncU8(e.v), EncStr(e.curve), EncStr(e.share);
    Chain(v, c + h, rest);
    Chain(c, h, rest);
    U8RoundTrip(e.v, c + (h + rest));
    assert DecStr(c + (h + rest)) == Got(e.curve, h + rest);
    assert DecStr(h + rest) == Got(e.share, rest);
  }

  lemma RoutingRoundTrip(r: Routing, rest: Bytes)
    requires OkStr(r.sessionId)
    ensures DecRouting(EncRouting(r) + rest) == Got(r, rest)
  {
    StrFaithful();
    ByteFaithful();
    var a, b, c, d, f := EncStr(r.sessionId), EncProtocol(r.protocol), EncU8(r.round), EncU8(r.fromId), EncOption(EncU8, r.toId);
    Chain(a, b + (c + (d + f)), rest);
    Chain(b, c + (d + f), rest);
    Chain(c, d + f, rest);
    Chain(d, f, rest);
    assert DecStr(a + (b + (c + (d + (f + rest))))) == Got(r.sessionId, b + (c + (d + (f + rest))));
    ProtocolRoundTrip(r.protocol, c + (d + (f + rest)));
    U8RoundTrip(r.round, d + (f + rest));
    U8RoundTrip(r.fromId, f + rest);
    OptionRoundTrip(EncU8, DecU8, OkByte, r.toId, rest);
  }

  lemma ContentRoundTrip(t: Content, rest: Bytes)
    requires OkStr(t.encoding) && OkStr(t.payload)
    requires (t.step.Some? ==> OkStr(t.step.value)) && (t.curve.Some? ==> OkStr(t.curve.value))
    requires t.payloads.Some? ==> OkStrs(t.payloads.value)
    ensures DecContent(EncContent(t) + rest) == Got(t, rest)
  {
    StrFaithful();
    StrsFaithful();
    var a, b, c, d, f := EncStr(t.encoding), EncStr(t.payload), EncOption(EncStr, t.step),
                         EncOption(EncStrs, t.payloads), EncOption(EncStr, t.curve);
    Chain(a, b + (c + (d + f)), rest);
    Chain(b, c + (d + f), rest);
    Chain(c, d + f, rest);
    Chain(d, f, rest);
    assert DecStr(a + (b + (c + (d + (f + rest))))) == Got(t.encoding, b + (c + (d + (f + rest))));
    assert DecStr(b + (c + (d + (f + rest)))) == Got(t.payload, c + (d + (f + rest)));
    OptionRoundTrip(EncStr, DecStr, OkStr, t.step, d + (f + rest));
    OptionRoundTrip(EncStrs, DecStrs, OkStrs, t.payloads, f + rest);
    OptionRoundTrip(EncStr, DecStr, OkStr, t.curve, rest);
  }

  lemma WireRoundTrip(e: WireEnvelope, rest: Bytes)
    requires OkWire(e)
    ensures DecWire(EncWire(e) + rest) == Got(e, rest)
  {
    var r, c := RoutingOf(e), ContentOf(e);
    Chain(EncRouting(r), EncContent(c), rest);
    RoutingRoundTrip(r, EncContent(c) + rest);
    ContentRoundTrip(c, rest);
  }

  /** Hence encodings are prefix-free: equal byte streams hold equal values and equal rests. */
  lemma PrefixFree<T(!new)>(enc: T -> Bytes, dec: Bytes -> Parsed<T>, ok: T -> bool, x: T, y: T, restX: Bytes, restY: Bytes)
    requires Faithful(enc, dec, ok) && ok(x) && ok(y) && enc(x) + restX == enc(y) + restY
    ensures x == y && restX == restY
  {
    assert dec(enc(x) + restX) == Got(x, restX);
    assert dec(enc(y) + restY) == Got(y, restY);
  }

  /** The length bound is exact: a longer byte list never comes back. */
  lemma BytesRoundTripIff(b: Bytes, rest: Bytes)
    ensures DecBytes(EncBytes(b) + rest) == Got(b, rest) <==> |b| < TWO31
  {
    BytesFaithful();
    if |b| >= TWO31 {
      var n := Wrap32(|b|);
      var body := EncAll(EncU8, b) + rest;
      assert EncBytes(b) + rest == EncI32(n) + body;
      I32RoundTrip(n, body);
      assert n != |b|;
    }
  }
}

/** Share and wire envelopes.  JSON text is produced and read by a library: a `Json` value stands
    for its writer and reader of one record type.  All that is used of it is that reading what was
    written gives the record back, for the records the code writes. */
module Envelope {
  import opened Wrappers
  import Base64

  datatype Json<!T> = Json(write: T -> Bytes, read: Bytes -> Option<T>)

  // ── Curves ──────────────────────────────────────────────────────────

  datatype Curve = Secp256k1 | Ed25519

  function AsStr(c: Curve): string {
    if c.Ed25519? then "ed25519" else "secp256k1"
  }

  function ParseCurve(s: string): Result<Curve, string> {
    if s == "secp256k1" || s == "" then Ok(Secp256k1)
    else if s == "ed25519" then Ok(Ed25519)
    else Err("unsupported curve")
  }

  // ── ShareEnvelope ───────────────────────────────────────────────────

  datatype ShareEnvelope = ShareEnvelope(v: byte, curve: string, share: string)

  datatype ShareError = BadOuterBase64 | BadCurve | BadInnerBase64

  function NewShare(curve: Curve, share: Bytes): ShareEnvelope {
    ShareEnvelope(2, AsStr(curve), Base64.Encode(share))
  }

  function EncodeShare(json: Json<ShareEnvelope>, e: ShareEnvelope): string {
    Base64.Encode(json.write(e))
  }

  function DecodeShare(json: Json<ShareEnvelope>, text: string): Result<(Curve, Bytes), ShareError> {
    match Base64.Decode(text)
    case None => Err(BadOuterBase64)
    case Some(raw) =>
      match json.read(raw)
      case None => Ok((Secp256k1, raw))
      case Some(e) =>
        match ParseCurve(e.curve)
        case Err(_) => Err(BadCurve)
        case Ok(c) =>
          match Base64.Decode(e.share)
          case None => Err(BadInnerBase64)
          case Some(b) => Ok((c, b))
  }

  /** The writer and reader agree on the share envelopes the engine writes. */
  ghost predicate ReadsBackShares(json: Json<ShareEnvelope>) {
    forall c: Curve, b: Bytes :: json.read(json.write(NewShare(c, b))) == Some(NewShare(c, b))
  }

  lemma ShareRoundTrip(json: Json<ShareEnvelope>, c: Curve, b: Bytes)
    requires ReadsBackShares(json)
    ensures DecodeShare(json, EncodeShare(json, NewShare(c, b))) == Ok((c, b))
  {
    var e := NewShare(c, b);
    Base64.DecodeEncode(json.write(e));
    Base64.DecodeEncode(b);
    assert json.read(json.write(e)) == Some(e);
  }

  /** Legacy shares: raw bytes that are no envelope come back unchanged, as secp256k1; and bytes
      that are one never come back as they are under the ed25519 tag unless it says so. */
  lemma LegacyShare(json: Json<ShareEnvelope>, raw: Bytes)
    ensures json.read(raw).None? ==> DecodeShare(json, Base64.Encode(raw)) == Ok((Secp256k1, raw))
    ensures DecodeShare(json, Base64.Encode(raw)).Ok? && DecodeShare(json, Base64.Encode(raw)).value.0.Ed25519? ==>
              json.read(raw).Some? && json.read(raw).value.curve == "ed25519"
  {
    Base64.DecodeEncode(raw);
  }

  // ── WireEnvelope ────────────────────────────────────────────────────

  datatype Protocol = Dkg | Dsg | Rotation

  datatype WireEnvelope = WireEnvelope(
    sessionId: string, protocol: Protocol, round: byte, fromId: byte, toId: Option<byte>,
    payloadEncoding: string, payload: string, step: Option<string>,
    payloads: Option<seq<string>>, curve: Option<string>)

  function NewBatch(sid: string, p: Protocol, round: byte, fromId: byte, toId: Option<byte>,
      payloads: seq<string>): WireEnvelope {
    WireEnvelope(sid, p, round, fromId, toId, "cbor_base64", "", None, Some(payloads), None)
  }

  function CurveOrDefault(e: WireEnvelope): Curve {
    match e.curve
    case Some(s) => (match ParseCurve(s) case Ok(c) => c case Err(_) => Secp256k1)
    case None => Secp256k1
  }

  function DecodeEach(payloads: seq<string>): Option<seq<Bytes>> {
    if payloads == [] then Some([])
    else
      match (Base64.Decode(payloads[0]), DecodeEach(payloads[1..]))
      case (Some(b), Some(rest)) => Some([b] + rest)
      case _ => None
  }

  function DecodeAllPayloads(e: WireEnvelope): Option<seq<Bytes>> {
    match e.payloads
    case Some(ps) => DecodeEach(ps)
    case None => (match Base64.Decode(e.payload) case Some(b) => Some([b]) case None => None)
  }

  function EncodeEach(messages: seq<Bytes>): (r: seq<string>)
    ensures |r| == |messages| && forall i :: 0 <= i < |r| ==> r[i] == Base64.Encode(messages[i])
  {
    seq(|messages|, i requires 0 <= i < |messages| => Base64.Encode(messages[i]))
  }

  /** Decoding succeeds exactly when every element is the Base64 form of some bytes, and yields
      those bytes in order. */
  lemma {:induction false} DecodeEachIff(payloads: seq<string>, messages: seq<Bytes>)
    ensures DecodeEach(payloads) == Some(messages) <==> payloads == EncodeEach(messages)
    decreases |payloads| + |messages|
  {
    if payloads != [] {
      if messages != [] {
        Base64.DecodesIff(payloads[0], messages[0]);
        DecodeEachIff(payloads[1..], messages[1..]);
        var enc := EncodeEach(messages);
        assert messages == [messages[0]] + messages[1..];
        assert enc == [enc[0]] + enc[1..] && enc[1..] == EncodeEach(messages[1..]);
        assert payloads == [payloads[0]] + payloads[1..];
      }
    }
  }

  lemma {:induction false} DecodeEachFails(payloads: seq<string>)
    ensures DecodeEach(payloads).None? <==> exists i :: 0 <= i < |payloads| && Base64.Decode(payloads[i]).None?
  {
    if payloads != [] {
      DecodeEachFails(payloads[1..]);
      assert forall i :: 1 <= i < |payloads| ==> payloads[i] == payloads[1..][i - 1];
    }
  }

  // ── Batches on the wire ─────────────────────────────────────────────

  datatype WireError = InvalidJson | NotFromServer | BadPayload

  /** The envelope of `make_in_progress_batch`: from party 0, to party 1. */
  function ClientBatch(sid: string, p: Protocol, round: byte, messages: seq<Bytes>): WireEnvelope {
    NewBatch(sid, p, round, 0, Some(1), EncodeEach(messages))
  }

  function ParseServerBatch(json: Json<WireEnvelope>, text: Bytes): Result<(WireEnvelope, seq<Bytes>), WireError> {
    match json.read(text)
    case None => Err(InvalidJson)
    case Some(e) =>
      if e.fromId != 1 then Err(NotFromServer)
      else
        match DecodeAllPayloads(e)
        case Some(ms) => Ok((e, ms))
        case None => Err(BadPayload)
  }

  /** `detect_curve_from_envelope`: anything unreadable counts as secp256k1. */
  function DetectCurve(json: Json<WireEnvelope>, text: Bytes): Curve {
    match json.read(text)
    case Some(e) => CurveOrDefault(e)
    case None => Secp256k1
  }

  /** Which engine a call of `keygen`, `recover` or `sign` goes to: round 1 by the curve it names, any
      other round by whether the FROST map holds the session. */
  predicate RoutesToFrost(round: int, curve: Curve, held: bool) {
    if round == 1 then curve.Ed25519? else held
  }

  /** Packing and decoding a batch gives the same messages back, as the peer reads them. */
  lemma BatchRoundTrip(sid: string, p: Protocol, round: byte, messages: seq<Bytes>)
    ensures DecodeAllPayloads(ClientBatch(sid, p, round, messages)) == Some(messages)
  {
    DecodeEachIff(EncodeEach(messages), messages);
  }

  /** What an envelope carries: the list of its payloads, or its single payload where it has no list. */
  function Carried(e: WireEnvelope): seq<string> {
    if e.payloads.Some? then e.payloads.value else [e.payload]
  }

  /** What the server sends is what the task gets: a batch is accepted, with these messages, exactly when
      it reads as an envelope from party 1 that carries their Base64, as a list or as a single payload. */
  lemma ServerBatchAccepted(json: Json<WireEnvelope>, text: Bytes, messages: seq<Bytes>)
    ensures (exists e :: ParseServerBatch(json, text) == Ok((e, messages)))
            <==> json.read(text).Some? && json.read(text).value.fromId == 1
                 && Carried(json.read(text).value) == EncodeEach(messages)
  {
    if json.read(text).Some? {
      var e := json.read(text).value;
      DecodeEachIff(Carried(e), messages);
      SinglePayload(e);
      assert DecodeAllPayloads(e) == DecodeEach(Carried(e));
      assert ParseServerBatch(json, text) == Ok((e, messages)) <==> e.fromId == 1 && DecodeEach(Carried(e)) == Some(messages);
    }
  }

  lemma SinglePayload(e: WireEnvelope)
    ensures DecodeAllPayloads(e) == DecodeEach(Carried(e))
  {
    var one := [e.payload];
    assert one[1..] == [] && DecodeEach([]) == Some([]);
    var b := Base64.Decode(e.payload);
    assert b.Some? ==> [b.value] + [] == [b.value];
  }
}

/** The codec as the generated code runs it: a serialiser that appends to its cursor and a
    deserialiser that advances through its data, each list in a loop.  Every method is proved
    against the encoder or decoder of its type in `Sse`; a `None` result stands for the panic. */
module SseCursor {
  import opened Wrappers
  import opened Envelope
  import opened Sse
  import Utf8

  lemma {:induction false} EncAllSnoc<T>(enc: T -> Bytes, xs: seq<T>, x: T)
    ensures EncAll(enc, xs + [x]) == EncAll(enc, xs) + enc(x)
  {
    if xs == [] {
      assert (xs + [x])[1..] == [];
    } else {
      assert (xs + [x])[1..] == xs[1..] + [x];
      EncAllSnoc(enc, xs[1..], x);
    }
  }

  lemma Grouped(x: Bytes, a: Bytes, b: Bytes)
    ensures x + a + b == x + (a + b)
  {
  }

  lemma Assemble(x: Bytes, a: Bytes, b: Bytes, c: Bytes, d: Bytes, e: Bytes)
    ensures x + a + b + c + d + e == x + (a + (b + (c + (d + e))))
  {
  }

  class SseSerializer {
    var cursor: Bytes

    constructor ()
      ensures cursor == []
    {
      cursor := [];
    }

    method PutU8(b: byte)
      modifies this
      ensures cursor == old(cursor) + EncU8(b)
    {
      cursor := cursor + [b];
    }

    method PutBool(b: bool)
      modifies this
      ensures cursor == old(cursor) + EncBool(b)
    {
      PutU8(if b then 1 else 0);
    }

    /** The four bytes of the word, in the order of the machine; what is appended reads back as `n`. */
    method PutI32(n: int)
      modifies this
      ensures cursor == old(cursor) + EncI32(n)
      ensures old(cursor) <= cursor && (IsI32(n) ==> DecI32(cursor[|old(cursor)|..]) == Got(n, []))
    {
      ghost var start := cursor;
      var u := n % TWO32;
      var (b0, b1, b2, b3) := (u % 256, u / 256 % 256, u / 65536 % 256, u / 16777216);
      cursor := cursor + if NATIVE.Little? then [b0, b1, b2, b3] else [b3, b2, b1, b0];
      assert cursor[|start|..] == EncI32(n) && EncI32(n) + [] == EncI32(n);
      if IsI32(n) { I32RoundTrip(n, []); }
    }

    method PutBytes(v: Bytes)
      modifies this
      ensures cursor == old(cursor) + EncBytes(v)
    {
      PutI32(Wrap32(|v|));
      PutAllBytes(v);
      Grouped(old(cursor), EncI32(Wrap32(|v|)), EncAll(EncU8, v));
    }

    /** The loop over the elements. */
    method PutAllBytes(v: Bytes)
      modifies this
      ensures cursor == old(cursor) + EncAll(EncU8, v)
    {
      ghost var start := cursor;
      assert v[..0] == [] && EncAll(EncU8, []) == [] && start + [] == start;
      hide EncAll, EncU8;
      for i := 0 to |v|
        invariant cursor == start + EncAll(EncU8, v[..i])
      {
        PutU8(v[i]);
        EncAllSnoc(EncU8, v[..i], v[i]);
        assert v[..i] + [v[i]] == v[..i + 1];
        Grouped(start, EncAll(EncU8, v[..i]), EncU8(v[i]));
      }
      assert v[..|v|] == v;
    }

    method PutStr(s: string)
      modifies this
      ensures cursor == old(cursor) + EncStr(s)
    {
      PutBytes(Utf8.Encode(s));
    }

    method PutStrs(v: seq<string>)
      modifies this
      ensures cursor == old(cursor) + EncStrs(v)
    {
      PutI32(Wrap32(|v|));
      PutAllStrs(v);
      Grouped(old(cursor), EncI32(Wrap32(|v|)), EncAll(EncStr, v));
    }

    /** The loop over the elements. */
    method PutAllStrs(v: seq<string>)
      modifies this
      ensures cursor == old(cursor) + EncAll(EncStr, v)
    {
      ghost var start := cursor;
      assert v[..0] == [] && EncAll(EncStr, []) == [] && start + [] == start;
      hide EncAll, EncStr;
      for i := 0 to |v|
        invariant cursor == start + EncAll(EncStr, v[..i])
      {
        PutStr(v[i]);
        EncAllSnoc(EncStr, v[..i], v[i]);
        assert v[..i] + [v[i]] == v[..i + 1];
        Grouped(start, EncAll(EncStr, v[..i]), EncStr(v[i]));
      }
      assert v[..|v|] == v;
    }

    method PutByteLists(v: seq<Bytes>)
      modifies this
      ensures cursor == old(cursor) + EncByteLists(v)
    {
      PutI32(Wrap32(|v|));
      PutAllByteLists(v);
      Grouped(old(cursor), EncI32(Wrap32(|v|)), EncAll(EncBytes, v));
    }

    /** The loop over the elements. */
    method PutAllByteLists(v: seq<Bytes>)
      modifies this
      ensures cursor == old(cursor) + EncAll(EncBytes, v)
    {
      ghost var start := cursor;
      assert v[..0] == [] && EncAll(EncBytes, []) == [] && start + [] == start;
      hide EncAll, EncBytes;
      for i := 0 to |v|
        invariant cursor == start + EncAll(EncBytes, v[..i])
      {
        PutBytes(v[i]);
        EncAllSnoc(EncBytes, v[..i], v[i]);
        assert v[..i] + [v[i]] == v[..i + 1];
        Grouped(start, EncAll(EncBytes, v[..i]), EncBytes(v[i]));
      }
      assert v[..|v|] == v;
    }

    method PutOptU8(v: Option<byte>)
      modifies this
      ensures cursor == old(cursor) + EncOption(EncU8, v)
    {
      PutBool(v.Some?);
      if v.Some? { PutU8(v.value); }
    }

    method PutOptStr(v: Option<string>)
      modifies this
      ensures cursor == old(cursor) + EncOption(EncStr, v)
    {
      PutBool(v.Some?);
      if v.Some? { PutStr(v.value); }
    }

    method PutOptStrs(v: Option<seq<string>>)
      modifies this
      ensures cursor == old(cursor) + EncOption(EncStrs, v)
    {
      PutBool(v.Some?);
      if v.Some? { PutStrs(v.value); }
    }

    method PutCurve(c: Curve)
      modifies this
      ensures cursor == old(cursor) + EncCurve(c)
    {
      PutI32(match c case Secp256k1 => 0 case Ed25519 => 1);
    }

    method PutProtocol(p: Protocol)
      modifies this
      ensures cursor == old(cursor) + EncProtocol(p)
    {
      PutI32(match p case Dkg => 0 case Dsg => 1 case Rotation => 2);
    }

    method PutCurveAndBytes(c: Curve, v: Bytes)
      modifies this
      ensures cursor == old(cursor) + EncCurveBytes((c, v))
    {
      PutCurve(c);
      PutBytes(v);
    }

    method PutShare(e: ShareEnvelope)
      modifies this
      ensures cursor == old(cursor) + EncShare(e)
    {
      PutU8(e.v);
      PutStr(e.curve);
      PutStr(e.share);
    }

    method PutRouting(r: Routing)
      modifies this
      ensures cursor == old(cursor) + EncRouting(r)
    {
      PutStr(r.sessionId);
      PutProtocol(r.protocol);
      PutU8(r.round);
      PutU8(r.fromId);
      PutOptU8(r.toId);
      Assemble(old(cursor), EncStr(r.sessionId), EncProtocol(r.protocol), EncU8(r.round), EncU8(r.fromId),
          EncOption(EncU8, r.toId));
    }

    method PutContent(c: Content)
      modifies this
      ensures cursor == old(cursor) + EncContent(c)
    {
      PutStr(c.encoding);
      PutStr(c.payload);
      PutOptStr(c.step);
      PutOptStrs(c.payloads);
      PutOptStr(c.curve);
      Assemble(old(cursor), EncStr(c.encoding), EncStr(c.payload), EncOption(EncStr, c.step),
               EncOption(EncStrs, c.payloads), EncOption(EncStr, c.curve));
    }

    method PutWire(e: WireEnvelope)
      modifies this
      ensures cursor == old(cursor) + EncWire(e)
    {
      PutRouting(RoutingOf(e));
      PutContent(ContentOf(e));
      hide EncRouting, EncContent, RoutingOf, ContentOf;
      Grouped(old(cursor), EncRouting(RoutingOf(e)), EncContent(ContentOf(e)));
    }
  }

  // ── Decoding ────────────────────────────────────────────────────────

  /** `r` and `rest` are what was parsed. */
  ghost predicate Decoded<T>(p: Parsed<T>, r: Option<T>, rest: Bytes) {
    match p
    case Failed => r.None?
    case Got(v, s) => r == Some(v) && rest == s
  }

  /** The result of a loop that has collected `xs` and still has to parse `p`. */
  ghost function Prepend<T>(xs: seq<T>, p: Parsed<seq<T>>): Parsed<seq<T>> {
    match p case Failed => Failed case Got(ys, s) => Got(xs + ys, s)
  }

  lemma PrependNil<T>(p: Parsed<seq<T>>)
    ensures Prepend([], p) == p
  {
    if p.Got? { assert [] + p.value == p.value; }
  }

  /** How a loop ends: with a failed element, or with all of them. */
  lemma LoopFails<T>(p: Parsed<seq<T>>, rest: Bytes)
    requires p == Failed
    ensures Decoded(p, None, rest)
  {
  }

  lemma LoopEnds<T>(p: Parsed<seq<T>>, xs: seq<T>, rest: Bytes)
    requires p == Got(xs, rest)
    ensures Decoded(p, Some(xs), rest)
  {
  }

  lemma PrependDone<T>(dec: Bytes -> Parsed<T>, xs: seq<T>, s: Bytes)
    ensures Prepend(xs, DecN(dec, 0, s)) == Got(xs, s)
  {
    assert xs + [] == xs;
  }

  /** One round of a loop: `x` is what the element decoder made of `before`. */
  lemma Collected<T>(dec: Bytes -> Parsed<T>, xs: seq<T>, n: nat, before: Bytes, x: Option<T>, after: Bytes)
    requires n > 0 && Decoded(dec(before), x, after)
    ensures x.None? ==> Prepend(xs, DecN(dec, n, before)) == Failed
    ensures x.Some? ==> Prepend(xs, DecN(dec, n, before)) == Prepend(xs + [x.value], DecN(dec, n - 1, after))
  {
    if x.Some? {
      var p := DecN(dec, n - 1, after);
      if p.Got? { assert xs + ([x.value] + p.value) == xs + [x.value] + p.value; }
    }
  }

  /** `n` elements and the end of the loop over them, for `DecU8`. */
  ghost function BytesFrom(n: nat, s: Bytes): Parsed<Bytes> { DecN(DecU8, n, s) }

  lemma BytesFromStep(xs: Bytes, n: nat, before: Bytes, x: Option<byte>, after: Bytes)
    requires n > 0 && Decoded(DecU8(before), x, after)
    ensures x.None? ==> Prepend(xs, BytesFrom(n, before)) == Failed
    ensures x.Some? ==> Prepend(xs, BytesFrom(n, before)) == Prepend(xs + [x.value], BytesFrom(n - 1, after))
  {
    Collected(DecU8, xs, n, before, x, after);
  }

  lemma BytesFromEnd(xs: Bytes, s: Bytes)
    ensures Prepend(xs, BytesFrom(0, s)) == Got(xs, s)
  {
    PrependDone(DecU8, xs, s);
  }

  /** `n` elements and the end of the loop over them, for `DecStr`. */
  ghost function StrsFrom(n: nat, s: Bytes): Parsed<seq<string>> { DecN(DecStr, n, s) }

  lemma StrsFromStep(xs: seq<string>, n: nat, before: Bytes, x: Option<string>, after: Bytes)
    requires n > 0 && Decoded(DecStr(before), x, after)
    ensures x.None? ==> Prepend(xs, StrsFrom(n, before)) == Failed
    ensures x.Some? ==> Prepend(xs, StrsFrom(n, before)) == Prepend(xs + [x.value], StrsFrom(n - 1, after))
  {
    Collected(DecStr, xs, n, before, x, after);
  }

  lemma StrsFromEnd(xs: seq<string>, s: Bytes)
    ensures Prepend(xs, StrsFrom(0, s)) == Got(xs, s)
  {
    PrependDone(DecStr, xs, s);
  }

  /** `n` elements and the end of the loop over them, for `DecBytes`. */
  ghost function ByteListsFrom(n: nat, s: Bytes): Parsed<seq<Bytes>> { DecN(DecBytes, n, s) }

  lemma ByteListsFromStep(xs: seq<Bytes>, n: nat, before: Bytes, x: Option<Bytes>, after: Bytes)
    requires n > 0 && Decoded(DecBytes(before), x, after)
    ensures x.None? ==> Prepend(xs, ByteListsFrom(n, before)) == Failed
    ensures x.Some? ==> Prepend(xs, ByteListsFrom(n, before)) == Prepend(xs + [x.value], ByteListsFrom(n - 1, after))
  {
    Collected(DecBytes, xs, n, before, x, after);
  }

  lemma ByteListsFromEnd(xs: seq<Bytes>, s: Bytes)
    ensures Prepend(xs, ByteListsFrom(0, s)) == Got(xs, s)
  {
    PrependDone(DecBytes, xs, s);
  }

  class SseDeserializer {
    const data: Bytes
    var pos: nat

    ghost predicate Valid()
      reads this
    {
      pos <= |data|
    }

    ghost function Rest(): Bytes
      reads this
      requires Valid()
    {
      data[pos..]
    }

    constructor (data: Bytes)
      ensures Valid() && this.data == data && Rest() == data
    {
      this.data, pos := data, 0;
    }

    method TakeU8() returns (r: Option<byte>)
      requires Valid()
      modifies this
      ensures Valid() && Decoded(DecU8(old(Rest())), r, Rest())
    {
      if pos == |data| { return None; }
      r := Some(data[pos]);
      pos := pos + 1;
    }

    method TakeBool() returns (r: Option<bool>)
      requires Valid()
      modifies this
      ensures Valid() && Decoded(DecBool(old(Rest())), r, Rest())
    {
      var b := TakeU8();
      r := if b.Some? then Some(b.value != 0) else None;
    }

    method TakeI32() returns (r: Option<int>)
      requires Valid()
      modifies this
      ensures Valid() && Decoded(DecI32(old(Rest())), r, Rest())
      ensures r.Some? ==> IsI32(r.value)
    {
      if |data| - pos < 4 { return None; }
      var (a, b, c, d) := (data[pos], data[pos + 1], data[pos + 2], data[pos + 3]);
      r := Some(Wrap32(if NATIVE.Little? then Word32(a, b, c, d) else Word32(d, c, b, a)));
      pos := pos + 4;
    }

    /** The loop over the elements. */
    method CollectBytes(n: nat) returns (r: Option<Bytes>)
      requires Valid()
      modifies this
      ensures Valid() && Decoded(BytesFrom(n, old(Rest())), r, Rest())
    {
      var ans: Bytes := [];
      ghost var all := BytesFrom(n, Rest());
      PrependNil(all);
      hide BytesFrom, Prepend, Decoded, DecU8;
      for i := 0 to n
        invariant Valid() && all == Prepend(ans, BytesFrom(n - i, Rest()))
      {
        ghost var before := Rest();
        var x := TakeU8();
        BytesFromStep(ans, n - i, before, x, Rest());
        if x.None? {
          LoopFails(all, Rest());
          return None;
        }
        ans := ans + [x.value];
      }
      BytesFromEnd(ans, Rest());
      LoopEnds(all, ans, Rest());
      r := Some(ans);
    }

    method TakeBytes() returns (r: Option<Bytes>)
      requires Valid()
      modifies this
      ensures Valid() && Decoded(DecBytes(old(Rest())), r, Rest())
    {
      var len := TakeI32();
      if len.None? || len.value < 0 { return None; }
      r := CollectBytes(len.value);
    }

    method TakeStr() returns (r: Option<string>)
      requires Valid()
      modifies this
      ensures Valid() && Decoded(DecStr(old(Rest())), r, Rest())
    {
      var b := TakeBytes();
      r := if b.Some? then Utf8.Decode(b.value) else None;
    }

    /** The loop over the elements. */
    method CollectStrs(n: nat) returns (r: Option<seq<string>>)
      requires Valid()
      modifies this
      ensures Valid() && Decoded(StrsFrom(n, old(Rest())), r, Rest())
    {
      var ans: seq<string> := [];
      ghost var all := StrsFrom(n, Rest());
      PrependNil(all);
      hide StrsFrom, Prepend, Decoded, DecStr;
      for i := 0 to n
        invariant Valid() && all == Prepend(ans, StrsFrom(n - i, Rest()))
      {
        ghost var before := Rest();
        var x := TakeStr();
        StrsFromStep(ans, n - i, before, x, Rest());
        if x.None? {
          LoopFails(all, Rest());
          return None;
        }
        ans := ans + [x.value];
      }
      StrsFromEnd(ans, Rest());
      LoopEnds(all, ans, Rest());
      r := Some(ans);
    }

    method TakeStrs() returns (r: Option<seq<string>>)
      requires Valid()
      modifies this
      ensures Valid() && Decoded(DecStrs(old(Rest())), r, Rest())
    {
      var len := TakeI32();
      if len.None? || len.value < 0 { return None; }
      r := CollectStrs(len.value);
    }

    /** The loop over the elements. */
    method CollectByteLists(n: nat) returns (r: Option<seq<Bytes>>)
      requires Valid()
      modifies this
      ensures Valid() && Decoded(ByteListsFrom(n, old(Rest())), r, Rest())
    {
      var ans: seq<Bytes> := [];
      ghost var all := ByteListsFrom(n, Rest());
      PrependNil(all);
      hide ByteListsFrom, Prepend, Decoded, DecBytes;
      for i := 0 to n
        invariant Valid() && all == Prepend(ans, ByteListsFrom(n - i, Rest()))
      {
        ghost var before := Rest();
        var x := TakeBytes();
        ByteListsFromStep(ans, n - i, before, x, Rest());
        if x.None? {
          LoopFails(all, Rest());
          return None;
        }
        ans := ans + [x.value];
      }
      ByteListsFromEnd(ans, Rest());
      LoopEnds(all, ans, Rest());
      r := Some(ans);
    }

    method TakeByteLists() returns (r: Option<seq<Bytes>>)
      requires Valid()
      modifies this
      ensures Valid() && Decoded(DecByteLists(old(Rest())), r, Rest())
    {
      var len := TakeI32();
      if len.None? || len.value < 0 { return None; }
      r := CollectByteLists(len.value);
    }

    method TakeOptU8() returns (r: Option<Option<byte>>)
      requires Valid()
      modifies this
      ensures Valid() && Decoded(DecOption(DecU8, old(Rest())), r, Rest())
    {
      var some := TakeBool();
      if some.None? { return None; }
      if !some.value { return Some(None); }
      var x := TakeU8();
      r := if x.Some? then Some(x) else None;
    }

    method TakeOptStr() returns (r: Option<Option<string>>)
      requires Valid()
      modifies this
      ensures Valid() && Decoded(DecOption(DecStr, old(Rest())), r, Rest())
    {
      var some := TakeBool();
      if some.None? { return None; }
      if !some.value { return Some(None); }
      var x := TakeStr();
      r := if x.Some? then Some(x) else None;
    }

    method TakeOptStrs() returns (r: Option<Option<seq<string>>>)
      requires Valid()
      modifies this
      ensures Valid() && Decoded(DecOption(DecStrs, old(Rest())), r, Rest())
    {
      var some := TakeBool();
      if some.None? { return None; }
      if !some.value { return Some(None); }
      var x := TakeStrs();
      r := if x.Some? then Some(x) else None;
    }

    method TakeCurve() returns (r: Option<Curve>)
      requires Valid()
      modifies this
      ensures Valid() && Decoded(DecCurve(old(Rest())), r, Rest())
    {
      var n := TakeI32();
      r := if n == Some(0) then Some(Secp256k1) else if n == Some(1) then Some(Ed25519) else None;
    }

    method TakeProtocol() returns (r: Option<Protocol>)
      requires Valid()
      modifies this
      ensures Valid() && Decoded(DecProtocol(old(Rest())), r, Rest())
    {
      var n := TakeI32();
      r := if n == Some(0) then Some(Dkg) else if n == Some(1) then Some(Dsg)
           else if n == Some(2) then Some(Rotation) else None;
    }

    method TakeCurveAndBytes() returns (r: Option<(Curve, Bytes)>)
      requires Valid()
      modifies this
      ensures Valid() && Decoded(DecCurveBytes(old(Rest())), r, Rest())
    {
      var c := TakeCurve();
      if c.None? { return None; }
      var b := TakeBytes();
      if b.None? { return None; }
      r := Some((c.value, b.value));
    }

    method TakeShare() returns (r: Option<ShareEnvelope>)
      requires Valid()
      modifies this
      ensures Valid() && Decoded(DecShare(old(Rest())), r, Rest())
    {
      var v := TakeU8();
      if v.None? { return None; }
      var curve := TakeStr();
      if curve.None? { return None; }
      var share := TakeStr();
      if share.None? { return None; }
      r := Some(ShareEnvelope(v.value, curve.value, share.value));
    }

    method TakeRouting() returns (r: Option<Routing>)
      requires Valid()
      modifies this
      ensures Valid() && Decoded(DecRouting(old(Rest())), r, Rest())
    {
      var sid := TakeStr();
      if sid.None? { return None; }
      var protocol := TakeProtocol();
      if protocol.None? { return None; }
      var round := TakeU8();
      if round.None? { return None; }
      var from := TakeU8();
      if from.None? { return None; }
      var to := TakeOptU8();
      if to.None? { return None; }
      r := Some(Routing(sid.value, protocol.value, round.value, from.value, to.value));
    }

    method TakeContent() returns (r: Option<Content>)
      requires Valid()
      modifies this
      ensures Valid() && Decoded(DecContent(old(Rest())), r, Rest())
    {
      var encoding := TakeStr();
      if encoding.None? { return None; }
      var payload := TakeStr();
      if payload.None? { return None; }
      var step := TakeOptStr();
      if step.None? { return None; }
      var payloads := TakeOptStrs();
      if payloads.None? { return None; }
      var curve := TakeOptStr();
      if curve.None? { return None; }
      r := Some(Content(encoding.value, payload.value, step.value, payloads.value, curve.value));
    }

    method TakeWire() returns (r: Option<WireEnvelope>)
      requires Valid()
      modifies this
      ensures Valid() && Decoded(DecWire(old(Rest())), r, Rest())
    {
      var routing := TakeRouting();
      if routing.None? { return None; }
      var content := TakeContent();
      if content.None? { return None; }
      r := Some(Join(routing.value, content.value));
    }
  }

  /** End to end: what one side puts, the other side takes, and the stream goes on after it. */
  method WireThrough(e: WireEnvelope, after: Bytes) returns (r: Option<WireEnvelope>, rest: Bytes)
    requires OkWire(e)
    ensures r == Some(e) && rest == after
  {
    var s := new SseSerializer();
    s.PutWire(e);
    assert s.cursor == EncWire(e);
    var d := new SseDeserializer(s.cursor + after);
    WireRoundTrip(e, after);
    r := d.TakeWire();
    rest := d.data[d.pos..];
  }
}

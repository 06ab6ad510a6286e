/** `export_private_key` of `mpc_engine` and the guard it arms: which engine a share goes to, and the
    registry of exported keys that round 1 of signing consults on both curves.  What the libraries
    read from the bytes of a key share is a parameter. */
module ExportGuard {
  import opened Wrappers
  import opened Text
  import opened Envelope
  import Base64

  /** What is known of the key shares of both libraries: the public key in them, if the bytes parse. */
  datatype Libraries = Libraries(json: Json<ShareEnvelope>, secpKey: Bytes -> Option<Bytes>, frostKey: Bytes -> Option<Bytes>)

  /** The lengths of compressed points on the two curves. */
  ghost predicate Compressed(l: Libraries) {
    && (forall b :: l.secpKey(b).Some? ==> |l.secpKey(b).value| == 33)
    && (forall b :: l.frostKey(b).Some? ==> |l.frostKey(b).value| == 32)
  }

  function IsFrostShare(l: Libraries, share: string): bool {
    var d := DecodeShare(l.json, share);
    d.Ok? && d.value.0.Ed25519?
  }

  function Hex(key: Option<Bytes>): Option<string> {
    if key.Some? then Some(HexEncode(key.value)) else None
  }

  /** The registry entry that round 1 of signing looks for; `None` where it rejects the share. */
  function SignKey(l: Libraries, share: string): Option<string> {
    match DecodeShare(l.json, share)
    case Err(_) => None
    case Ok((c, raw)) => Hex(if c.Ed25519? then l.frostKey(raw) else l.secpKey(raw))
  }

  /** The key in a DKLs23 share given as its raw base64. */
  function RawKey(l: Libraries, share: string): Option<string> {
    match Base64.Decode(share) case None => None case Some(raw) => Hex(l.secpKey(raw))
  }

  /** The entry that an export makes: an ed25519 envelope goes to FROST, anything else is read as the raw
      base64 of a DKLs23 share. */
  function ExportKey(l: Libraries, share: string): Option<string> {
    if IsFrostShare(l, share) then SignKey(l, share) else RawKey(l, share)
  }

  /** The key whose share round 1 of recovery goes on to refresh; `None` where it rejects the backup share. */
  function RecoverKey(l: Libraries, share: string): Option<string> {
    match DecodeShare(l.json, share)
    case Ok((Ed25519, raw)) => Hex(l.frostKey(raw))
    case _ => RawKey(l, share)
  }

  class ExportedKeys {
    const libraries: Libraries
    const combines: (string, string) -> bool   // reconstruction from two shares succeeds
    var keys: set<string>
    ghost var exports: seq<(string, string)>   // every call of `ExportPrivateKey` so far

    /** The registry is that of the exports made. */
    ghost predicate Valid()
      reads this
    {
      keys == Registry(libraries, combines, exports)
    }

    constructor (libraries: Libraries, combines: (string, string) -> bool)
      ensures this.libraries == libraries && this.combines == combines && exports == [] && Valid()
    {
      this.libraries, this.combines, keys, exports := libraries, combines, {}, [];
    }

    /** The FROST function refuses a server share of the other curve; the DKLs23 path cannot parse one. */
    method ExportPrivateKey(local: string, server: string) returns (exported: bool)
      requires Valid()
      modifies this
      ensures Valid() && exports == old(exports) + [(local, server)]
      ensures exported <==> Exports(libraries, combines, local, server)
      ensures keys == if exported then old(keys) + {ExportKey(libraries, local).value} else old(keys)
    {
      exported := false;
      exports := exports + [(local, server)];
      assert exports[..|exports| - 1] == old(exports);
      var mine, theirs;
      if IsFrostShare(libraries, local) {
        if !IsFrostShare(libraries, server) { return; }
        mine, theirs := SignKey(libraries, local), SignKey(libraries, server);
      } else {
        var a, b := Base64.Decode(local), Base64.Decode(server);
        if a.None? || b.None? { return; }
        mine, theirs := Hex(libraries.secpKey(a.value)), Hex(libraries.secpKey(b.value));
      }
      if mine.None? || theirs.None? || mine != theirs || !combines(local, server) { return; }
      keys := keys + {mine.value};
      exported := true;
    }

    /** The guard at round 1 of signing: a share is refused exactly if it does not parse, or some export so
        far has succeeded with its key. */
    method MaySign(share: string) returns (ok: bool)
      requires Valid()
      ensures !ok <==> SignKey(libraries, share).None?
                       || exists i :: 0 <= i < |exports| && Entry(libraries, combines, exports[i]) == SignKey(libraries, share)
    {
      var key := SignKey(libraries, share);
      ok := key.Some? && key.value !in keys;
      if key.Some? { RegisteredIff(libraries, combines, exports, key.value); }
    }
  }

  predicate Exports(l: Libraries, combines: (string, string) -> bool, local: string, server: string) {
    && ExportKey(l, local).Some? && combines(local, server)
    && if IsFrostShare(l, local) then IsFrostShare(l, server) && SignKey(l, server) == ExportKey(l, local)
       else Base64.Decode(server).Some? && Hex(l.secpKey(Base64.Decode(server).value)) == ExportKey(l, local)
  }

  // ── The guard over all runs ─────────────────────────────────────────

  /** The entry that an export of two shares adds, if it succeeds. */
  function Entry(l: Libraries, combines: (string, string) -> bool, shares: (string, string)): (e: Option<string>)
    ensures e.Some? <==> Exports(l, combines, shares.0, shares.1)
  {
    if Exports(l, combines, shares.0, shares.1) then ExportKey(l, shares.0) else None
  }

  /** The registry after some exports, successful or not. */
  function Registry(l: Libraries, combines: (string, string) -> bool, exports: seq<(string, string)>): set<string> {
    if exports == [] then {}
    else
      var e := Entry(l, combines, exports[|exports| - 1]);
      Registry(l, combines, exports[..|exports| - 1]) + if e.Some? then {e.value} else {}
  }

  /** A key is registered exactly if some export with it has succeeded; nothing ever unlocks it. */
  lemma {:induction false} RegisteredIff(l: Libraries, combines: (string, string) -> bool,
                                         exports: seq<(string, string)>, key: string)
    ensures key in Registry(l, combines, exports) <==>
              exists i :: 0 <= i < |exports| && Entry(l, combines, exports[i]) == Some(key)
    decreases |exports|
  {
    hide Entry, Exports, ExportKey;
    if exports != [] {
      var n := |exports| - 1;
      RegisteredIff(l, combines, exports[..n], key);
      assert forall i :: 0 <= i < n ==> exports[..n][i] == exports[i];
    }
  }

  /** An export locks shares of its own curve only: registered keys of the two curves differ in length. */
  lemma CurvesApart(l: Libraries, combines: (string, string) -> bool, local: string, server: string, share: string)
    requires Compressed(l) && Exports(l, combines, local, server) && SignKey(l, share) == ExportKey(l, local)
    ensures IsFrostShare(l, share) == IsFrostShare(l, local)
  {
    var k := SignKey(l, share).value;
    assert |k| == if IsFrostShare(l, share) then 64 else 66;
  }

  // ── Shares that sign but are neither exported nor recovered ─────────

  /** The share reads as an envelope, whatever its layout, that names secp256k1. */
  predicate NamesSecp(l: Libraries, share: string) {
    var raw := Base64.Decode(share);
    && raw.Some? && l.json.read(raw.value).Some?
    && ParseCurve(l.json.read(raw.value).value.curve) == Ok(Secp256k1)
  }

  /** The DKLs23 parser takes no bytes that read as an envelope. */
  ghost predicate RefusesEnvelopes(l: Libraries) {
    forall raw: Bytes :: l.json.read(raw).Some? ==> l.secpKey(raw).None?
  }

  /** Such an envelope is unwrapped for signing, but for export its own bytes go to the share parser;
      every other share is read alike.  So a share that signs can be exported if and only if it is no
      such envelope. */
  lemma SignsButNotExportedIff(l: Libraries, share: string)
    requires RefusesEnvelopes(l) && SignKey(l, share).Some?
    ensures ExportKey(l, share).None? <==> NamesSecp(l, share)
    ensures !NamesSecp(l, share) ==> ExportKey(l, share) == SignKey(l, share)
  {
  }

  /** The same holds for recovery: a share that signs can be recovered from if and only if it is no such
      envelope. */
  lemma SignsButNotRecoveredIff(l: Libraries, share: string)
    requires RefusesEnvelopes(l) && SignKey(l, share).Some?
    ensures RecoverKey(l, share).None? <==> NamesSecp(l, share)
    ensures !NamesSecp(l, share) ==> RecoverKey(l, share) == SignKey(l, share)
  {
  }

  /** The envelope that the code itself writes for a DKLs23 share is one. */
  lemma EnvelopedShareIsNotExported(l: Libraries, b: Bytes)
    requires ReadsBackShares(l.json) && RefusesEnvelopes(l) && l.secpKey(b).Some?
    ensures var share := EncodeShare(l.json, NewShare(Secp256k1, b));
            SignKey(l, share).Some? && ExportKey(l, share).None? && RecoverKey(l, share).None?
  {
    var e := NewShare(Secp256k1, b);
    ShareRoundTrip(l.json, Secp256k1, b);
    Base64.DecodeEncode(l.json.write(e));
  }

  /** Without that assumption: what the two read is the key in the wrapped share and the key in the bytes
      around it. */
  lemma ReadFrom(l: Libraries, share: string)
    requires SignKey(l, share).Some? && NamesSecp(l, share)
    ensures var raw := Base64.Decode(share).value;
            var inner := Base64.Decode(l.json.read(raw).value.share);
            && inner.Some? && SignKey(l, share) == Hex(l.secpKey(inner.value)) && ExportKey(l, share) == Hex(l.secpKey(raw))
  {
  }
}

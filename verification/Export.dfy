/** `export_private_key` for ed25519: from two stored shares to the secret scalar.

    `compress` stands for "multiply the base point by a scalar and compress", the one thing taken
    from the curve library; shares come deserialised, with byte strings as the library gives them. */
module Export {
  import opened Wrappers
  import opened SessionKeys
  import opened ModArith
  import opened Lagrange
  import opened FrostSessions
  import opened FrostEngine
  import Address

  datatype KeyShare = KeyShare(vk: Bytes, identifier: Bytes, signingShare: Bytes)

  datatype Field = LocalIdentifier | ServerIdentifier | LocalShare | ServerShare

  datatype ExportError =
    | BadShare
    | KeyMismatch
    | WrongLength(field: Field)
    | NotCanonical(field: Field)
    | IdenticalIdentifiers
    | SanityCheckFailed
    | NoAddress

  datatype ExportResult = ExportResult(privateKey: Bytes, address: string)

  // ── The code ────────────────────────────────────────────────────────

  function ToScalar(q: nat, b: Bytes, field: Field): Result<nat, ExportError> {
    if |b| != 32 then Err(WrongLength(field))
    else if FromLE(b) >= q then Err(NotCanonical(field))
    else Ok(FromLE(b))
  }

  function ExportPrivateKey(q: nat, compress: nat -> Bytes, local: Option<KeyShare>,
      server: Option<KeyShare>): Result<ExportResult, ExportError>
    requires q > 0
  {
    if local.None? || server.None? then Err(BadShare)
    else if local.value.vk != server.value.vk then Err(KeyMismatch)
    else
      var x1 := ToScalar(q, local.value.identifier, LocalIdentifier);
      var x2 := ToScalar(q, server.value.identifier, ServerIdentifier);
      var s1 := ToScalar(q, local.value.signingShare, LocalShare);
      var s2 := ToScalar(q, server.value.signingShare, ServerShare);
      if x1.Err? then Err(x1.error)
      else if x2.Err? then Err(x2.error)
      else if s1.Err? then Err(s1.error)
      else if s2.Err? then Err(s2.error)
      else if Sub(q, x1.value, x2.value) == 0 then Err(IdenticalIdentifiers)
      else
        var secret := Secret(q, x1.value, s1.value, x2.value, s2.value);
        if compress(secret) != local.value.vk then Err(SanityCheckFailed)
        else
          var address := Address.DeriveSolanaAddress(local.value.vk);
          if address.Err? then Err(NoAddress) else Ok(ExportResult(ToLE(secret, 32), address.value))
  }

  // ── What it is for ──────────────────────────────────────────────────

  /** A prime order that fits 32 bytes, and 32-byte points that determine their discrete logarithm. */
  ghost predicate IsGroup(q: nat, compress: nat -> Bytes) {
    && IsPrime(q) && q <= Pow(256, 32)
    && (forall n: nat :: |compress(n)| == 32)
    && (forall m: nat, n: nat :: m < q && n < q && compress(m) == compress(n) ==> m == n)
  }

  predicate IsScalar(q: nat, b: Bytes) {
    |b| == 32 && FromLE(b) < q
  }

  /** `f` is the polynomial the two shares lie on. */
  ghost predicate Through(q: nat, f: Poly, a: KeyShare, b: KeyShare)
    requires q > 0
  {
    && IsPoly(q, f)
    && Eval(q, f, FromLE(a.identifier)) == FromLE(a.signingShare)
    && Eval(q, f, FromLE(b.identifier)) == FromLE(b.signingShare)
  }

  /** The two shares belong to one key: same verifying key, canonical scalars, two identifiers, and
      a polynomial through both whose constant term is the discrete logarithm of the key. */
  ghost predicate OneKey(q: nat, compress: nat -> Bytes, a: KeyShare, b: KeyShare, f: Poly)
    requires q > 0
  {
    && a.vk == b.vk
    && IsScalar(q, a.identifier) && IsScalar(q, b.identifier) && IsScalar(q, a.signingShare) && IsScalar(q, b.signingShare)
    && a.identifier != b.identifier
    && Through(q, f, a, b) && compress(f.a) == a.vk
  }

  lemma DistinctScalars(q: nat, a: Bytes, b: Bytes)
    requires IsScalar(q, a) && IsScalar(q, b)
    ensures Sub(q, FromLE(a), FromLE(b)) == 0 <==> a == b
  {
    LittleEndianBack(a);
    LittleEndianBack(b);
    if a != b { SubNonZero(q, FromLE(a), FromLE(b)); }
  }

  /** The secret of two shares, read off their bytes. */
  function SecretOfShares(q: nat, a: KeyShare, b: KeyShare): nat
    requires q > 0
  {
    Secret(q, FromLE(a.identifier), FromLE(a.signingShare), FromLE(b.identifier), FromLE(b.signingShare))
  }

  /** All the checks of an export, in no order. */
  predicate Passes(q: nat, compress: nat -> Bytes, a: KeyShare, b: KeyShare)
    requires q > 0
  {
    && a.vk == b.vk
    && IsScalar(q, a.identifier) && IsScalar(q, b.identifier) && IsScalar(q, a.signingShare) && IsScalar(q, b.signingShare)
    && a.identifier != b.identifier
    && compress(SecretOfShares(q, a, b)) == a.vk
  }

  lemma Checks(q: nat, compress: nat -> Bytes, a: KeyShare, b: KeyShare)
    requires IsGroup(q, compress)
    ensures var r := ExportPrivateKey(q, compress, Some(a), Some(b));
            && (r.Ok? <==> Passes(q, compress, a, b))
            && (r.Ok? ==> Address.DeriveSolanaAddress(a.vk) == Ok(r.value.address)
                          && r.value.privateKey == ToLE(SecretOfShares(q, a, b), 32))
  {
    hide FromLE, ToLE, Secret, Pow, IsPrime, Sub;
    if IsScalar(q, a.identifier) && IsScalar(q, b.identifier) { DistinctScalars(q, a.identifier, b.identifier); }
  }

  /** Shares of one key pass, with its secret. */
  lemma SharesPass(q: nat, compress: nat -> Bytes, a: KeyShare, b: KeyShare, f: Poly)
    requires IsGroup(q, compress) && OneKey(q, compress, a, b, f)
    ensures Passes(q, compress, a, b) && SecretOfShares(q, a, b) == f.a
  {
    var x1, x2 := FromLE(a.identifier), FromLE(b.identifier);
    LittleEndianBack(a.identifier);
    LittleEndianBack(b.identifier);
    InterpolatesAtZero(q, f, x1, x2);
  }

  /** Shares that pass are of one key. */
  lemma PassingShares(q: nat, compress: nat -> Bytes, a: KeyShare, b: KeyShare) returns (f: Poly)
    requires IsGroup(q, compress) && Passes(q, compress, a, b)
    ensures OneKey(q, compress, a, b, f)
  {
    var x1, x2 := FromLE(a.identifier), FromLE(b.identifier);
    LittleEndianBack(a.identifier);
    LittleEndianBack(b.identifier);
    f := PolynomialExists(q, x1, FromLE(a.signingShare), x2, FromLE(b.signingShare));
    InterpolatesAtZero(q, f, x1, x2);
  }

  /** Shares of one key export its secret, canonically encoded, in whichever order they come. */
  lemma SharesExport(q: nat, compress: nat -> Bytes, a: KeyShare, b: KeyShare, f: Poly)
    requires IsGroup(q, compress) && OneKey(q, compress, a, b, f)
    ensures ExportPrivateKey(q, compress, Some(a), Some(b)) == ExportPrivateKey(q, compress, Some(b), Some(a))
    ensures var r := ExportPrivateKey(q, compress, Some(a), Some(b));
            && r.Ok? && IsScalar(q, r.value.privateKey) && FromLE(r.value.privateKey) == f.a
            && Address.DeriveSolanaAddress(a.vk) == Ok(r.value.address)
  {
    hide ExportPrivateKey;
    SharesPass(q, compress, a, b, f);
    SharesPass(q, compress, b, a, f);
    Checks(q, compress, a, b);
    Checks(q, compress, b, a);
    LittleEndianRoundTrip(f.a, 32);
  }

  /** The share that a polynomial gives the party with identifier `x`. */
  function Deal(q: nat, compress: nat -> Bytes, f: Poly, x: nat): KeyShare
    requires q > 0
  {
    KeyShare(compress(f.a), ToLE(x, 32), ToLE(Eval(q, f, x), 32))
  }

  /** Two dealt shares are of one key, and export gives back the secret they were dealt from. */
  lemma DealThenExport(q: nat, compress: nat -> Bytes, f: Poly, x1: nat, x2: nat)
    requires IsGroup(q, compress) && IsPoly(q, f) && x1 < q && x2 < q && x1 != x2
    ensures var a, b := Deal(q, compress, f, x1), Deal(q, compress, f, x2);
            && OneKey(q, compress, a, b, f)
            && ExportPrivateKey(q, compress, Some(a), Some(b)) == ExportPrivateKey(q, compress, Some(b), Some(a))
            && ExportPrivateKey(q, compress, Some(a), Some(b)).Ok?
            && ExportPrivateKey(q, compress, Some(a), Some(b)).value.privateKey == ToLE(f.a, 32)
  {
    var a, b := Deal(q, compress, f, x1), Deal(q, compress, f, x2);
    LittleEndianRoundTrip(x1, 32);
    LittleEndianRoundTrip(x2, 32);
    LittleEndianRoundTrip(Eval(q, f, x1), 32);
    LittleEndianRoundTrip(Eval(q, f, x2), 32);
    hide ExportPrivateKey, FromLE, ToLE, Pow, Secret;
    assert OneKey(q, compress, a, b, f);
    SharesExport(q, compress, a, b, f);
    LittleEndianBack(ExportPrivateKey(q, compress, Some(a), Some(b)).value.privateKey);
  }

  /** Export succeeds exactly on two shares of one key; everything else is refused. */
  lemma ExportIff(q: nat, compress: nat -> Bytes, local: Option<KeyShare>, server: Option<KeyShare>)
    requires IsGroup(q, compress)
    ensures ExportPrivateKey(q, compress, local, server).Ok? <==>
              local.Some? && server.Some? && exists f :: OneKey(q, compress, local.value, server.value, f)
  {
    if local.Some? && server.Some? {
      hide ExportPrivateKey, OneKey, Passes;
      var a, b := local.value, server.value;
      Checks(q, compress, a, b);
      if Passes(q, compress, a, b) { var f := PassingShares(q, compress, a, b); }
      if f :| OneKey(q, compress, a, b, f) { SharesPass(q, compress, a, b, f); }
    }
  }

  // ── Refresh ─────────────────────────────────────────────────────────

  /** One refresh adds to the share at `x` the value of a polynomial with constant term zero. */
  function Refreshed(q: nat, s: nat, x: nat, slopes: seq<nat>): nat
    requires q > 0
    decreases slopes
  {
    if slopes == [] then s else Refreshed(q, Add(q, s, Mul(q, slopes[0], x)), x, slopes[1..])
  }

  lemma RefreshOnce(q: nat, f: Poly, b: nat, x: nat)
    requires q > 0
    ensures Add(q, Eval(q, f, x), Mul(q, b, x)) == Eval(q, Poly(f.a, Add(q, f.b, b)), x)
  {
    var g := Poly(f.a, Add(q, f.b, b));
    var l, r := Add(q, Eval(q, f, x), Mul(q, b, x)), Eval(q, g, x);
    EvalCong(q, f, x);
    CongMod(q, b * x);
    CongAdd(q, Eval(q, f, x), f.a + f.b * x, Mul(q, b, x), b * x);
    CongMod(q, Eval(q, f, x) + Mul(q, b, x));
    CongTrans(q, l, Eval(q, f, x) + Mul(q, b, x), f.a + f.b * x + b * x);
    EvalCong(q, g, x);
    CongMod(q, f.b + b);
    CongRefl(q, x);
    CongMul(q, f.b + b, g.b, x, x);
    CongRefl(q, f.a);
    CongAdd(q, f.a, f.a, (f.b + b) * x, g.b * x);
    Expand(f.a, f.b, b, x);
    CongTrans(q, l, f.a + (f.b + b) * x, f.a + g.b * x);
    CongSym(q, r, f.a + g.b * x);
    CongTrans(q, l, f.a + g.b * x, r);
    CongUnique(q, l, r);
  }

  lemma Expand(a: int, b: int, c: int, x: int)
    ensures a + b * x + c * x == a + (b + c) * x
  {
  }

  /** The polynomial after some refreshes: the same constant term, a new slope. */
  function RefreshedPoly(q: nat, f: Poly, slopes: seq<nat>): (g: Poly)
    requires q > 0
    ensures g.a == f.a && (IsPoly(q, f) ==> IsPoly(q, g))
    decreases slopes
  {
    if slopes == [] then f else RefreshedPoly(q, Poly(f.a, Add(q, f.b, slopes[0])), slopes[1..])
  }

  lemma {:induction false} RefreshedShare(q: nat, f: Poly, x: nat, slopes: seq<nat>)
    requires q > 0
    ensures Refreshed(q, Eval(q, f, x), x, slopes) == Eval(q, RefreshedPoly(q, f, slopes), x)
    decreases slopes
  {
    if slopes != [] {
      RefreshOnce(q, f, slopes[0], x);
      RefreshedShare(q, Poly(f.a, Add(q, f.b, slopes[0])), x, slopes[1..]);
    }
  }

  /** Any number of refreshes of any two shares leaves the reconstructed secret alone. */
  lemma RefreshKeepsSecret(q: nat, x1: nat, s1: nat, x2: nat, s2: nat, slopes: seq<nat>)
    requires IsPrime(q) && x1 < q && x2 < q && x1 != x2 && s1 < q && s2 < q
    ensures Secret(q, x1, Refreshed(q, s1, x1, slopes), x2, Refreshed(q, s2, x2, slopes)) == Secret(q, x1, s1, x2, s2)
  {
    var f := PolynomialExists(q, x1, s1, x2, s2);
    RefreshedShare(q, f, x1, slopes);
    RefreshedShare(q, f, x2, slopes);
    InterpolatesAtZero(q, f, x1, x2);
    InterpolatesAtZero(q, RefreshedPoly(q, f, slopes), x1, x2);
  }

  /** `b` holds the share of `a` after these refreshes, under the same key. */
  ghost predicate IsRefresh(q: nat, a: KeyShare, b: KeyShare, slopes: seq<nat>)
    requires q > 0
  {
    && b.vk == a.vk && b.identifier == a.identifier && IsScalar(q, b.signingShare)
    && FromLE(b.signingShare) == Refreshed(q, FromLE(a.signingShare), FromLE(a.identifier), slopes)
  }

  /** So refreshed shares export what the originals do. */
  lemma RefreshedSharesExport(q: nat, compress: nat -> Bytes, a: KeyShare, b: KeyShare, a': KeyShare, b': KeyShare,
      slopes: seq<nat>)
    requires IsGroup(q, compress) && IsRefresh(q, a, a', slopes) && IsRefresh(q, b, b', slopes)
    requires ExportPrivateKey(q, compress, Some(a), Some(b)).Ok?
    ensures ExportPrivateKey(q, compress, Some(a'), Some(b')) == ExportPrivateKey(q, compress, Some(a), Some(b))
  {
    hide ExportPrivateKey;
    Checks(q, compress, a, b);
    Checks(q, compress, a', b');
    LittleEndianBack(a.identifier);
    LittleEndianBack(b.identifier);
    RefreshKeepsSecret(q, FromLE(a.identifier), FromLE(a.signingShare), FromLE(b.identifier), FromLE(b.signingShare), slopes);
  }

  /** And the comparison of verifying keys at the end of a recovery cannot fire: whatever session is
      stored, if its key is that of some shares and the library answers with the key of the same
      shares refreshed, the recovery completes. */
  lemma FinalizeCannotMismatch(q: nat, compress: nat -> Bytes, s: State, sid: string,
                               x1: nat, s1: nat, x2: nat, s2: nat, slopes: seq<nat>)
    requires IsPrime(q) && x1 < q && x2 < q && x1 != x2 && s1 < q && s2 < q
    requires Key(Recover, sid) in s.store.sessions && s.store.sessions[Key(Recover, sid)].RecoverySession?
    requires s.store.sessions[Key(Recover, sid)].vk == compress(Secret(q, x1, s1, x2, s2))
    ensures var key := compress(Secret(q, x1, Refreshed(q, s1, x1, slopes), x2, Refreshed(q, s2, x2, slopes)));
            var o := Effect(s, RecoverFinalize(sid), Granted(key)).outcome;
            o.Rotated? && o.rvk == s.store.sessions[Key(Recover, sid)].vk
  {
    RefreshKeepsSecret(q, x1, s1, x2, s2, slopes);
  }
}

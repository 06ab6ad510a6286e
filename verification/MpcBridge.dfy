/** The engine as the client library sees it: `keygen`, `recover` and `sign` of `mpc_engine`, with
    the FROST engine behind them and the DKLs23 engine as an arbitrary oracle. */
module MpcBridge {
  import opened Wrappers
  import opened SessionKeys
  import opened Envelope
  import F = FrostSessions
  import FI = FrostInvariant
  import FE = FrostEngine
  import FC = FrostCalls
  import Utf8

  /** What a signing payload contains for the two rounds, where it parses. */
  datatype SignParts = SignParts(commitments: Option<Bytes>, package: Option<Bytes>)

  /** The readers of the server's envelopes and of the signing payloads in them. */
  datatype Parsers = Parsers(json: Json<WireEnvelope>, signParts: string -> SignParts)

  function PayloadIn(p: Parsers, text: Bytes): Option<Bytes> {
    match p.json.read(text) case Some(e) => Some(Utf8.Encode(e.payload)) case None => None
  }

  function SignPartsIn(p: Parsers, text: Bytes): SignParts {
    match p.json.read(text) case Some(e) => p.signParts(e.payload) case None => SignParts(None, None)
  }

  /** A share as decoded: its curve, and the verifying key where the material in it parses. */
  datatype Share = Share(curve: Curve, vk: Option<Bytes>)

  /** The curve a share names; without a readable share, secp256k1. */
  function CurveOf(share: Option<Share>): Curve {
    if share.Some? then share.value.curve else Secp256k1
  }

  /** The key of an ed25519 share, as the FROST engine extracts it. */
  function VkOf(share: Option<Share>): Option<Bytes> {
    if CurveOf(share).Ed25519? then share.value.vk else None
  }

  datatype ClientPayload =
    | Message(bytes: Bytes)
    | KeyFields(mpcKeyId: string, publicKey: Bytes, rotationVersion: int, curve: Option<Curve>)   // keygen names the curve
    | Signature(sig: Bytes)

  datatype Status = InRound | Complete | Failed | Unknown

  /** A round's result, or the exception the bridge throws for an `Err`. */
  datatype RoundResult = Thrown | Round(status: Status, payload: Option<ClientPayload>)

  datatype EngineCall = EngineCall(op: Op, sid: string, round: int, text: Bytes)

  function IsContinue(r: RoundResult): bool { r.Round? && r.status.InRound? }
  function IsCompleted(r: RoundResult): bool { r.Round? && r.status.Complete? }

  type Sessions = map<Key, F.Session>

  /** The session under `k` is set to `x`, or nothing is known but that other sessions stay. */
  ghost predicate OthersKept(before: Sessions, after: Sessions, k: Key) {
    after - {k} == before - {k}
  }

  /** What a FROST round of keygen or recovery comes to: a first round stores a state of one part with
      the payload; a second, if the library takes part 2 on the stored state and payload, the next state
      with the new payload; and the last answers with the key that the library makes of the stored state
      and payload.  Nothing else gets a result. */
  ghost predicate Rounds(library: FE.LibCall -> F.Answer, k: Key, round: int, payload: Option<Bytes>,
                         before: Sessions, after: Sessions, r: RoundResult)
  {
    && OthersKept(before, after, k)
    && (IsContinue(r) ==>
          && payload.Some? && k in after && IsState(k, after[k]) && F.PayloadOf(after[k]) == payload.value
          && (round == 1
              || (round == 2 && k in before && IsState(k, before[k])
                  && library(FE.Part2(StateOf(before[k]), F.PayloadOf(before[k]))).Granted?))
          && Parts(after[k]) == if round == 1 then 1 else Parts(before[k]) + 1)
    && (IsCompleted(r) ==>
          && round == 0 && k in before && IsState(k, before[k]) && r.payload.Some? && r.payload.value.KeyFields?
          && r.payload.value.mpcKeyId == k.sid
          && library(FE.Part3(StateOf(before[k]), F.PayloadOf(before[k]))) == F.Granted(r.payload.value.publicKey))
    && (IsContinue(r) || IsCompleted(r) || r.Thrown?)
  }

  /** A recovery carries the key of the backup share and the version it was started with to its result. */
  ghost predicate Carries(k: Key, round: int, vk: Option<Bytes>, rotation: Option<int>, before: Sessions,
      after: Sessions, r: RoundResult) {
    && (IsContinue(r) && k in after && after[k].RecoverySession? ==>
          if round == 1 then vk == Some(after[k].vk) && rotation == Some(after[k].version)
          else k in before && before[k].RecoverySession? && after[k].vk == before[k].vk && after[k].version == before[k].version)
    && (IsCompleted(r) && k in before && before[k].RecoverySession? && r.payload.Some? && r.payload.value.KeyFields? ==>
          r.payload.value.publicKey == before[k].vk && r.payload.value.rotationVersion == F.NextVersion(before[k].version))
  }

  /** What a FROST signing round comes to: the first stores the message, the second signs that message. */
  ghost predicate SignRounds(k: Key, round: int, message: Option<Bytes>, package: Option<Bytes>,
                             before: Sessions, after: Sessions, r: RoundResult)
  {
    && OthersKept(before, after, k)
    && (IsContinue(r) ==>
          round == 1 && message.Some? && k in after && after[k].SignSession? && after[k].message == message.value)
    && (IsCompleted(r) ==>
          && round == 2 && k in before && before[k].SignSession? && package == Some(before[k].message)
          && r.payload.Some? && r.payload.value.Signature?)
    && (IsContinue(r) || IsCompleted(r) || r.Thrown?)
  }

  predicate IsState(k: Key, x: F.Session) {
    (k.op.Keygen? && x.KeygenSession?) || (k.op.Recover? && x.RecoverySession?)
  }

  function StateOf(x: F.Session): F.LibState
    requires x.KeygenSession? || x.RecoverySession?
  {
    if x.KeygenSession? then x.lib else x.rlib
  }

  function Parts(x: F.Session): nat
    requires x.KeygenSession? || x.RecoverySession?
  {
    StateOf(x).parts
  }

  // ── What a call to the FROST engine comes to ────────────────────────

  /** `FC.Engine.Did` on values. */
  ghost predicate Did(library: FE.LibCall -> F.Answer, s: F.State, t: F.State, r: F.Request, reply: FC.Reply) {
    var e := FE.Effect(s, r, FE.Answered(library, s, r));
    t.store == e.store && reply == FC.ReplyOf(e.outcome)
  }

  /** A reply on its way to the client; `out` is the message or signature in it. */
  function Deliver(reply: FC.Reply, sid: string, out: Bytes): RoundResult {
    match reply
    case Error => Thrown
    case InProgress => Round(InRound, Some(Message(out)))
    case KeygenDone(vk) => Round(Complete, Some(KeyFields(sid, vk, 1, Some(Ed25519))))
    case RecoverDone(vk, version) => Round(Complete, Some(KeyFields(sid, vk, version, None)))
    case SignDone => Round(Complete, Some(Signature(out)))
    case ExportDone(_) => Thrown
  }

  lemma StoredIsState(s: F.State, k: Key)
    requires FI.Inv(s) && k in s.store.sessions && !k.op.Sign?
    ensures IsState(k, s.store.sessions[k])
  {
    FE.StoredTyped(s, k);
  }

  /** A second round, in either protocol, renews the stored state or leaves nothing new behind. */
  lemma SecondNet(s: F.State, k: Key, r: F.Request, a: F.Answer)
    requires (r.KeygenRound2? || r.RecoverRound2?) && F.KeyOf(r) == Some(k)
    requires k in s.store.sessions ==> IsState(k, s.store.sessions[k])
    ensures var e := FE.Effect(s, r, a);
            && OthersKept(s.store.sessions, e.store.sessions, k)
            && (e.outcome.Continued? || e.outcome.Rejected?)
            && (e.outcome.Continued? ==>
                  && r.payload.Some? && k in s.store.sessions
                  && e.store.sessions == s.store.sessions[k := FE.Renewed(s.store.sessions[k], s.hist.next, r.payload.value)])
  {
  }

  /** A last round takes the state away, and completes only on the library's answer. */
  lemma LastNet(s: F.State, k: Key, r: F.Request, a: F.Answer)
    requires (r.KeygenFinalize? || r.RecoverFinalize?) && F.KeyOf(r) == Some(k)
    requires k in s.store.sessions ==> IsState(k, s.store.sessions[k])
    ensures var e := FE.Effect(s, r, a);
            && OthersKept(s.store.sessions, e.store.sessions, k)
            && (e.outcome.Rejected? || (k in s.store.sessions && a.Granted? &&
                  if r.KeygenFinalize? then e.outcome == F.KeyReady(a.key)
                  else e.outcome.Rotated? && e.outcome.rvk == a.key == s.store.sessions[k].vk
                       && e.outcome.rversion == F.NextVersion(s.store.sessions[k].version)))
  {
  }

  lemma KeygenFirst(library: FE.LibCall -> F.Answer, s: F.State, t: F.State, sid: string, payload: Option<Bytes>,
      reply: FC.Reply, out: Bytes)
    requires FI.Inv(s) && Did(library, s, t, F.KeygenRound1(sid, payload), reply)
    ensures Rounds(library, Key(Keygen, sid), 1, payload, s.store.sessions, t.store.sessions, Deliver(reply, sid, out))
    ensures reply.InProgress? || reply.Error?
  {
    hide FI.Inv;
  }

  lemma KeygenSecond(library: FE.LibCall -> F.Answer, s: F.State, t: F.State, sid: string, payload: Option<Bytes>,
      reply: FC.Reply, out: Bytes)
    requires FI.Inv(s) && Did(library, s, t, F.KeygenRound2(sid, payload), reply)
    ensures Rounds(library, Key(Keygen, sid), 2, payload, s.store.sessions, t.store.sessions, Deliver(reply, sid, out))
    ensures reply.InProgress? || reply.Error?
  {
    var k := Key(Keygen, sid);
    if k in s.store.sessions { StoredIsState(s, k); }
    var r := F.KeygenRound2(sid, payload);
    SecondNet(s, k, r, FE.Answered(library, s, r));
    hide FI.Inv, FE.Effect, FE.Answered;
  }

  lemma KeygenLast(library: FE.LibCall -> F.Answer, s: F.State, t: F.State, sid: string, payload: Option<Bytes>,
      reply: FC.Reply, out: Bytes)
    requires FI.Inv(s) && Did(library, s, t, F.KeygenFinalize(sid), reply)
    ensures Rounds(library, Key(Keygen, sid), 0, payload, s.store.sessions, t.store.sessions, Deliver(reply, sid, out))
    ensures reply.KeygenDone? || reply.Error?
  {
    var k := Key(Keygen, sid);
    if k in s.store.sessions { StoredIsState(s, k); }
    var r := F.KeygenFinalize(sid);
    LastNet(s, k, r, FE.Answered(library, s, r));
    hide FI.Inv, FE.Effect;
  }

  lemma RecoverFirst(library: FE.LibCall -> F.Answer, s: F.State, t: F.State, sid: string, payload: Option<Bytes>,
      backup: Option<Bytes>, rotation: Option<int>, reply: FC.Reply, out: Bytes)
    requires FI.Inv(s) && Did(library, s, t, F.RecoverRound1(sid, payload, backup, rotation), reply)
    ensures Rounds(library, Key(Recover, sid), 1, payload, s.store.sessions, t.store.sessions, Deliver(reply, sid, out))
    ensures Carries(Key(Recover, sid), 1, backup, rotation, s.store.sessions, t.store.sessions, Deliver(reply, sid, out))
    ensures reply.InProgress? || reply.Error?
  {
    hide FI.Inv;
  }

  lemma RecoverSecond(library: FE.LibCall -> F.Answer, s: F.State, t: F.State, sid: string, payload: Option<Bytes>,
      reply: FC.Reply, out: Bytes)
    requires FI.Inv(s) && Did(library, s, t, F.RecoverRound2(sid, payload), reply)
    ensures Rounds(library, Key(Recover, sid), 2, payload, s.store.sessions, t.store.sessions, Deliver(reply, sid, out))
    ensures Carries(Key(Recover, sid), 2, None, None, s.store.sessions, t.store.sessions, Deliver(reply, sid, out))
    ensures reply.InProgress? || reply.Error?
  {
    var k := Key(Recover, sid);
    if k in s.store.sessions { StoredIsState(s, k); }
    var r := F.RecoverRound2(sid, payload);
    SecondNet(s, k, r, FE.Answered(library, s, r));
    hide FI.Inv, FE.Effect, FE.Answered;
  }

  lemma RecoverLast(library: FE.LibCall -> F.Answer, s: F.State, t: F.State, sid: string, payload: Option<Bytes>,
      reply: FC.Reply, out: Bytes)
    requires FI.Inv(s) && Did(library, s, t, F.RecoverFinalize(sid), reply)
    ensures Rounds(library, Key(Recover, sid), 0, payload, s.store.sessions, t.store.sessions, Deliver(reply, sid, out))
    ensures Carries(Key(Recover, sid), 0, None, None, s.store.sessions, t.store.sessions, Deliver(reply, sid, out))
    ensures reply.RecoverDone? || reply.Error?
  {
    var k := Key(Recover, sid);
    if k in s.store.sessions { StoredIsState(s, k); }
    var r := F.RecoverFinalize(sid);
    LastNet(s, k, r, FE.Answered(library, s, r));
    hide FI.Inv, FE.Effect;
  }

  lemma SignFirst(library: FE.LibCall -> F.Answer, s: F.State, t: F.State, sid: string, commitments: Option<Bytes>,
                  share: Option<Bytes>, message: Option<Bytes>, package: Option<Bytes>, reply: FC.Reply, out: Bytes)
    requires Did(library, s, t, F.SignRound1(sid, commitments, share, message), reply)
    ensures SignRounds(Key(Sign, sid), 1, message, package, s.store.sessions, t.store.sessions, Deliver(reply, sid, out))
  {
  }

  lemma StoredIsSign(s: F.State, k: Key)
    requires FI.Inv(s) && k in s.store.sessions && k.op.Sign?
    ensures s.store.sessions[k].SignSession?
  {
    FE.StoredTyped(s, k);
  }

  lemma SignNet(s: F.State, k: Key, r: F.Request, a: F.Answer)
    requires r.SignRound2? && F.KeyOf(r) == Some(k)
    requires k in s.store.sessions ==> s.store.sessions[k].SignSession?
    ensures var e := FE.Effect(s, r, a);
            && OthersKept(s.store.sessions, e.store.sessions, k)
            && (e.outcome.Rejected?
                || (e.outcome.Signed? && k in s.store.sessions && r.package == Some(s.store.sessions[k].message)))
  {
  }

  lemma SignSecond(library: FE.LibCall -> F.Answer, s: F.State, t: F.State, sid: string,
                   message: Option<Bytes>, package: Option<Bytes>, reply: FC.Reply, out: Bytes)
    requires FI.Inv(s) && Did(library, s, t, F.SignRound2(sid, package), reply)
    ensures SignRounds(Key(Sign, sid), 2, message, package, s.store.sessions, t.store.sessions, Deliver(reply, sid, out))
  {
    var k := Key(Sign, sid);
    if k in s.store.sessions { StoredIsSign(s, k); }
    var r := F.SignRound2(sid, package);
    SignNet(s, k, r, FE.Answered(library, s, r));
    hide FI.Inv, FE.Effect, FE.Answered;
  }

  lemma FreshCall(m: map<nat, F.Flight>) returns (c: nat)
    ensures c !in m
  {
    c := Above(m.Keys);
  }

  lemma Above(ids: set<nat>) returns (c: nat)
    ensures forall i :: i in ids ==> i < c
    decreases ids
  {
    if ids == {} {
      c := 0;
    } else {
      var i :| i in ids;
      var d := Above(ids - {i});
      c := if d <= i then i + 1 else d;
      forall j | j in ids ensures j < c {
        if j != i { assert j in ids - {i}; }
      }
    }
  }

  class Bridge {
    const frost: FC.Engine
    const parsers: Parsers
    const secp: (nat, EngineCall) -> RoundResult
    const outputs: nat -> Bytes     // the messages and signatures the FROST library produces
    var asked: nat

    ghost predicate Valid()
      reads this, frost
    {
      FI.Inv(frost.View())
    }

    constructor (frost: FC.Engine, parsers: Parsers, secp: (nat, EngineCall) -> RoundResult, outputs: nat -> Bytes)
      requires frost.View() == F.INIT
      ensures Valid() && this.frost == frost && this.parsers == parsers && this.secp == secp && this.outputs == outputs
    {
      this.frost, this.parsers, this.secp, this.outputs := frost, parsers, secp, outputs;
      asked := 0;
    }

    /** `mpc_engine::keygen`. */
    method Keygen(sid: string, round: int, text: Bytes) returns (r: RoundResult, viaFrost: bool)
      requires Valid()
      modifies this, frost
      ensures Valid()
      ensures viaFrost <==> RoutesToFrost(round, DetectCurve(parsers.json, text), Key(Op.Keygen, sid) in old(frost.sessions))
      ensures !viaFrost ==> frost.sessions == old(frost.sessions) && r == secp(asked, EngineCall(Op.Keygen, sid, round, text))
      ensures viaFrost ==> Rounds(frost.library, Key(Op.Keygen, sid), round, PayloadIn(parsers, text), old(frost.sessions),
          frost.sessions, r)
      ensures viaFrost && IsCompleted(r) ==> r.payload.value.rotationVersion == 1 && r.payload.value.curve == Some(Ed25519)
    {
      var k := Key(Op.Keygen, sid);
      viaFrost := RoutesToFrost(round, DetectCurve(parsers.json, text), k in frost.sessions);
      asked := asked + 1;
      if viaFrost {
        ghost var s := frost.View();
        ghost var c := FreshCall(frost.flights);
        hide FI.Inv, FE.Effect, FE.Answered;
        var payload := PayloadIn(parsers, text);
        var reply := frost.CallKeygen(sid, round, payload, c);
        r := Deliver(reply, sid, outputs(asked));
        if round == 1 { KeygenFirst(frost.library, s, frost.View(), sid, payload, reply, outputs(asked)); }
        if round == 2 { KeygenSecond(frost.library, s, frost.View(), sid, payload, reply, outputs(asked)); }
        if round == 0 { KeygenLast(frost.library, s, frost.View(), sid, payload, reply, outputs(asked)); }
      } else {
        r := secp(asked, EngineCall(Op.Keygen, sid, round, text));
      }
    }

    /** `mpc_engine::recover`; `backup` is the share as decoded. */
    method Recover(sid: string, round: int, text: Bytes, backup: Option<Share>, rotation: Option<int>)
      returns (r: RoundResult, viaFrost: bool)
      requires Valid()
      modifies this, frost
      ensures Valid()
      ensures viaFrost <==> RoutesToFrost(round, CurveOf(backup), Key(Op.Recover, sid) in old(frost.sessions))
      ensures !viaFrost ==> frost.sessions == old(frost.sessions) && r == secp(asked, EngineCall(Op.Recover, sid, round, text))
      ensures viaFrost ==> Rounds(frost.library, Key(Op.Recover, sid), round, PayloadIn(parsers, text), old(frost.sessions),
          frost.sessions, r)
      ensures viaFrost ==> Carries(Key(Op.Recover, sid), round, VkOf(backup), rotation, old(frost.sessions), frost.sessions, r)
    {
      var k := Key(Op.Recover, sid);
      viaFrost := RoutesToFrost(round, CurveOf(backup), k in frost.sessions);
      asked := asked + 1;
      if viaFrost {
        ghost var s := frost.View();
        ghost var c := FreshCall(frost.flights);
        hide FI.Inv, FE.Effect, FE.Answered;
        var payload := PayloadIn(parsers, text);
        var reply := frost.CallRecover(sid, round, payload, VkOf(backup), rotation, c);
        r := Deliver(reply, sid, outputs(asked));
        if round == 1 {
          RecoverFirst(frost.library, s, frost.View(), sid, payload, VkOf(backup), rotation, reply, outputs(asked));
        }
        if round == 2 { RecoverSecond(frost.library, s, frost.View(), sid, payload, reply, outputs(asked)); }
        if round == 0 { RecoverLast(frost.library, s, frost.View(), sid, payload, reply, outputs(asked)); }
      } else {
        r := secp(asked, EngineCall(Op.Recover, sid, round, text));
      }
    }

    /** `mpc_engine::sign`. */
    method Sign(sid: string, round: int, text: Bytes, share: Option<Share>, message: Option<Bytes>)
      returns (r: RoundResult, viaFrost: bool)
      requires Valid()
      modifies this, frost
      ensures Valid()
      ensures viaFrost <==> RoutesToFrost(round, CurveOf(share), Key(Op.Sign, sid) in old(frost.sessions))
      ensures !viaFrost ==> frost.sessions == old(frost.sessions) && r == secp(asked, EngineCall(Op.Sign, sid, round, text))
      ensures viaFrost ==> SignRounds(Key(Op.Sign, sid), round, message, SignPartsIn(parsers, text).package,
          old(frost.sessions), frost.sessions, r)
    {
      var k := Key(Op.Sign, sid);
      viaFrost := RoutesToFrost(round, CurveOf(share), k in frost.sessions);
      asked := asked + 1;
      if viaFrost {
        ghost var s := frost.View();
        ghost var c := FreshCall(frost.flights);
        hide FI.Inv, FE.Effect, FE.Answered;
        var parts := SignPartsIn(parsers, text);
        var reply := frost.CallSign(sid, round, parts.commitments, parts.package, VkOf(share), message, c);
        r := Deliver(reply, sid, outputs(asked));
        if round == 1 {
          SignFirst(frost.library, s, frost.View(), sid, parts.commitments, VkOf(share), message, parts.package,
              reply, outputs(asked));
        }
        if round == 2 { SignSecond(frost.library, s, frost.View(), sid, message, parts.package, reply, outputs(asked)); }
      } else {
        r := secp(asked, EngineCall(Op.Sign, sid, round, text));
      }
    }
  }
}

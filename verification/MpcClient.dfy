/** The client driver: `keygen`, `recover` and `sign` of `MpcClient`, looping over whatever the server
    answers, and what the engine has run when one of them returns a result. */
module MpcClient {
  import opened Wrappers
  import opened SessionKeys
  import opened Envelope
  import opened MpcBridge
  import opened Text
  import F = FrostSessions
  import FI = FrostInvariant
  import FE = FrostEngine
  import FC = FrostCalls

  /** JSON text of the value `null`. */
  const NULL_TEXT: Bytes := [110, 117, 108, 108]

  /** The `result` object of a response: the fields the client looks at, `None` where absent or null. */
  datatype Data = Data(sessionId: Option<string>, serverPayload: Option<Bytes>, completed: bool, r: Option<Bytes>)

  /** What comes of one request: the transport throws, or returns some text. */
  datatype Reply = TransportThrows | NotJson | RpcError(code: int, message: string) | Response(result: Option<Data>)

  datatype ClientError = TransportFailed | InvalidResponse | RpcFailed(code: int, message: string) | MissingResult
                       | NoSessionId | EngineThrew | ProtocolError | UnexpectedState | BadResult | BadBackup

  datatype Method = KeygenMethod | RecoveryMethod | SignMethod

  /** A signature comes from the engine's last round, or from the server ready-made. */
  datatype SignResult = FromEngine(payload: ClientPayload) | FromServer(r: Bytes)

  /** What the first request of a driver asks for. */
  datatype Opening =
    | NewKey(curve: Curve)
    | Rotation(mpcKeyId: string, version: int)
    | SignatureOf(mpcKeyId: string, messageHash: string)

  /** One JSON-RPC request; round 1 has no session id and no client payload. */
  datatype Rpc = Rpc(id: nat, m: Method, round: int, opening: Option<Opening>,
                     sessionId: Option<string>, clientPayload: Option<ClientPayload>)

  /** One engine call with its result. */
  datatype Ran = Ran(round: int, sid: string, text: Bytes, viaFrost: bool, result: RoundResult)

  /** One turn of a driver: a request, and the engine call made with its answer. */
  datatype Turn = Turn(rpc: Rpc, data: Data, ran: Ran)

  function PayloadOfResult(r: RoundResult): Option<ClientPayload> {
    if r.Round? then r.payload else None
  }

  /** Turn `i` of a run that began with `before` requests already sent: the next request id, the next
      round, the first turn's session, the previous engine output, the server's payload handed over. */
  ghost predicate TurnOk(turns: seq<Turn>, i: nat, before: nat, m: Method, o: Opening, transport: seq<Reply>)
    requires i < |turns|
  {
    var t := turns[i];
    && t.rpc.id == before + i + 1 && t.rpc.m == m && t.rpc.round == i + 1
    && 0 < t.rpc.id <= |transport| && transport[t.rpc.id - 1] == Response(Some(t.data))
    && turns[0].data.sessionId == Some(t.ran.sid)
    && (if i == 0 then t.rpc.opening == Some(o) && t.rpc.sessionId.None? && t.rpc.clientPayload.None?
        else t.rpc.opening.None? && t.rpc.sessionId == Some(t.ran.sid) && IsContinue(turns[i - 1].ran.result)
             && t.rpc.clientPayload == PayloadOfResult(turns[i - 1].ran.result))
    && (if i == 0 || t.data.serverPayload.Some? then t.ran.round == i + 1 else t.ran.round == 0)
    && t.ran.text == if i == 0 then FirstText(t.data) else TextOf(t.data)
  }

  /** The text the engine gets in round 1, and later. */
  function FirstText(d: Data): Bytes { if d.serverPayload.Some? then d.serverPayload.value else NULL_TEXT }
  function TextOf(d: Data): Bytes { if d.serverPayload.Some? then d.serverPayload.value else [] }

  ghost predicate TurnsOk(turns: seq<Turn>, before: nat, m: Method, o: Opening, transport: seq<Reply>) {
    forall i :: 0 <= i < |turns| ==> TurnOk(turns, i, before, m, o, transport)
  }

  lemma Extended(turns: seq<Turn>, t: Turn, before: nat, m: Method, o: Opening, transport: seq<Reply>)
    requires TurnsOk(turns, before, m, o, transport) && TurnOk(turns + [t], |turns|, before, m, o, transport)
    ensures TurnsOk(turns + [t], before, m, o, transport)
  {
    forall i | 0 <= i < |turns + [t]| ensures TurnOk(turns + [t], i, before, m, o, transport) {
      if i < |turns| { assert TurnOk(turns, i, before, m, o, transport); }
    }
  }

  /** The answer to the first request, if it opens a session: otherwise the engine is never asked. */
  function FirstAnswer(transport: seq<Reply>, before: nat): Option<Data> {
    if before < |transport| && transport[before].Response? && transport[before].result.Some?
       && transport[before].result.value.sessionId.Some?
    then transport[before].result else None
  }

  /** The curve that routes round 1: that of the share if there is one, else the one that the envelope in
      the server's first answer names. */
  function RoutedBy(p: Parsers, transport: seq<Reply>, before: nat, share: Option<Curve>): Curve {
    if share.Some? then share.value
    else match FirstAnswer(transport, before) case Some(d) => DetectCurve(p.json, FirstText(d)) case None => Secp256k1
  }

  // ── A run that FROST started ────────────────────────────────────────

  /** While the engine says "continue", one or two rounds have run, all in FROST, and the stored state
      has that many parts and the last payload the server sent. */
  ghost predicate Underway(turns: seq<Turn>, k: Key, p: Parsers, library: FE.LibCall -> F.Answer, sessions: Sessions) {
    && 1 <= |turns| <= 2
    && (forall i :: 0 <= i < |turns| ==>
          turns[i].ran.viaFrost && turns[i].ran.round == i + 1 && PayloadIn(p, turns[i].ran.text).Some?)
    && k in sessions && IsState(k, sessions[k]) && Parts(sessions[k]) == |turns|
    && PayloadIn(p, turns[|turns| - 1].ran.text) == Some(F.PayloadOf(sessions[k]))
    && (|turns| == 2 ==> PartTwoTaken(library, PayloadIn(p, turns[0].ran.text).value))
  }

  /** The library has taken part 2 on a one-part state and this payload. */
  ghost predicate PartTwoTaken(library: FE.LibCall -> F.Answer, payload: Bytes) {
    exists state: F.LibState :: state.parts == 1 && library(FE.Part2(state, payload)).Granted?
  }

  /** A run with a result: rounds 1, 2 and 0, all in FROST; the library has taken part 2 on the payload of
      the first answer, and the result is what it makes of a two-part state and the second payload. */
  ghost predicate Finished(turns: seq<Turn>, k: Key, p: Parsers, library: FE.LibCall -> F.Answer) {
    && |turns| == 3
    && (forall i :: 0 <= i < 3 ==> turns[i].ran.viaFrost && turns[i].ran.round == (if i < 2 then i + 1 else 0))
    && PayloadIn(p, turns[0].ran.text).Some? && PayloadIn(p, turns[1].ran.text).Some?
    && IsCompleted(turns[2].ran.result) && turns[2].ran.result.payload.Some?
    && turns[2].ran.result.payload.value.KeyFields? && turns[2].ran.result.payload.value.mpcKeyId == k.sid
    && PartTwoTaken(library, PayloadIn(p, turns[0].ran.text).value)
    && exists state: F.LibState :: state.parts == 2
         && library(FE.Part3(state, PayloadIn(p, turns[1].ran.text).value))
            == F.Granted(turns[2].ran.result.payload.value.publicKey)
  }

  /** Part 3 is refused on a state that has not been through part 2. */
  ghost predicate Orderly(library: FE.LibCall -> F.Answer) {
    forall state: F.LibState, input: Bytes :: library(FE.Part3(state, input)).Granted? ==> state.parts >= 2
  }

  ghost predicate Story(turns: seq<Turn>, k: Key, p: Parsers, library: FE.LibCall -> F.Answer,
      sessions: Sessions) {
    turns != [] && turns[0].ran.viaFrost ==>
      var last := turns[|turns| - 1].ran.result;
      && (IsContinue(last) ==> Underway(turns, k, p, library, sessions))
      && (IsCompleted(last) ==> Finished(turns, k, p, library))
      && (IsContinue(last) || IsCompleted(last) || last.Thrown?)
  }

  lemma StoryBegins(t: Turn, k: Key, p: Parsers, library: FE.LibCall -> F.Answer,
      before: Sessions, after: Sessions)
    requires t.ran.round == 1
    requires t.ran.viaFrost ==> Rounds(library, k, 1, PayloadIn(p, t.ran.text), before, after, t.ran.result)
    ensures Story([t], k, p, library, after)
  {
  }

  lemma StoryGoesOn(turns: seq<Turn>, t: Turn, k: Key, p: Parsers, library: FE.LibCall -> F.Answer,
                    before: Sessions, after: Sessions)
    requires Orderly(library) && Story(turns, k, p, library, before)
    requires turns != [] && IsContinue(turns[|turns| - 1].ran.result)
    requires t.ran.viaFrost == (k in before) && (t.ran.round == 0 || t.ran.round == |turns| + 1)
    requires t.ran.viaFrost ==> Rounds(library, k, t.ran.round, PayloadIn(p, t.ran.text), before, after, t.ran.result)
    ensures Story(turns + [t], k, p, library, after)
  {
    var all := turns + [t];
    if turns[0].ran.viaFrost {
      assert Underway(turns, k, p, library, before);
      if IsCompleted(t.ran.result) {
        var x := before[k];
        assert library(FE.Part3(StateOf(x), F.PayloadOf(x))).Granted?;
        assert Finished(all, k, p, library);
      } else if IsContinue(t.ran.result) {
        assert library(FE.Part2(StateOf(before[k]), F.PayloadOf(before[k]))).Granted?;
      }
    }
  }

  /** In a recovery the stored session keeps the backup share's key and the version given, and the result
      has that key and the next version. */
  ghost predicate CarriedStory(turns: seq<Turn>, k: Key, vk: Option<Bytes>, rotation: int, sessions: Sessions) {
    turns != [] && turns[0].ran.viaFrost ==>
      var last := turns[|turns| - 1].ran.result;
      && (IsContinue(last) && k in sessions && sessions[k].RecoverySession? ==>
            vk == Some(sessions[k].vk) && sessions[k].version == rotation)
      && (IsCompleted(last) && last.payload.Some? && last.payload.value.KeyFields? ==>
            vk == Some(last.payload.value.publicKey) && last.payload.value.rotationVersion == F.NextVersion(rotation))
  }

  lemma CarriedBegins(t: Turn, k: Key, library: FE.LibCall -> F.Answer, payload: Option<Bytes>, vk: Option<Bytes>,
      rotation: int, before: Sessions, after: Sessions)
    requires t.ran.viaFrost ==> Rounds(library, k, 1, payload, before, after, t.ran.result)
                                && Carries(k, 1, vk, Some(rotation), before, after, t.ran.result)
    ensures CarriedStory([t], k, vk, rotation, after)
  {
  }

  lemma CarriedGoesOn(turns: seq<Turn>, t: Turn, k: Key, p: Parsers, library: FE.LibCall -> F.Answer,
                      vk: Option<Bytes>, rotation: int, before: Sessions, after: Sessions)
    requires k.op.Recover? && Story(turns, k, p, library, before) && CarriedStory(turns, k, vk, rotation, before)
    requires turns != [] && IsContinue(turns[|turns| - 1].ran.result) && t.ran.viaFrost == (k in before) && t.ran.round != 1
    requires t.ran.viaFrost ==> Rounds(library, k, t.ran.round, PayloadIn(p, t.ran.text), before, after, t.ran.result)
                                && Carries(k, t.ran.round, None, None, before, after, t.ran.result)
    ensures CarriedStory(turns + [t], k, vk, rotation, after)
  {
    if turns[0].ran.viaFrost { assert Underway(turns, k, p, library, before); }
  }

  /** A signing run in FROST: after round 1 the message is stored, and a signature comes of round 2, on a
      package for that message. */
  ghost predicate SignStory(turns: seq<Turn>, k: Key, p: Parsers, message: Option<Bytes>, sessions: Sessions) {
    turns != [] && turns[0].ran.viaFrost ==>
      var last := turns[|turns| - 1].ran;
      && (IsContinue(last.result) ==>
            |turns| == 1 && message.Some? && k in sessions && sessions[k].SignSession? && sessions[k].message == message.value)
      && (IsCompleted(last.result) ==> SignFinished(turns, p, message))
  }

  ghost predicate SignFinished(turns: seq<Turn>, p: Parsers, message: Option<Bytes>) {
    && |turns| == 2 && turns[0].ran.round == 1 && turns[1].ran.round == 2 && turns[1].ran.viaFrost
    && message.Some? && SignPartsIn(p, turns[1].ran.text).package == message
  }

  lemma SignBegins(t: Turn, k: Key, p: Parsers, message: Option<Bytes>, before: Sessions, after: Sessions)
    requires t.ran.round == 1
    requires t.ran.viaFrost ==> SignRounds(k, 1, message, SignPartsIn(p, t.ran.text).package, before, after, t.ran.result)
    ensures SignStory([t], k, p, message, after)
  {
  }

  lemma SignGoesOn(turns: seq<Turn>, t: Turn, k: Key, p: Parsers, message: Option<Bytes>,
      before: Sessions, after: Sessions)
    requires SignStory(turns, k, p, message, before) && turns != [] && IsContinue(turns[|turns| - 1].ran.result)
    requires turns[0].ran.round == 1 && t.ran.viaFrost == (k in before) && t.ran.round == |turns| + 1
    requires t.ran.viaFrost ==> SignRounds(k, t.ran.round, None, SignPartsIn(p, t.ran.text).package, before, after, t.ran.result)
    ensures SignStory(turns + [t], k, p, message, after)
  {
  }

  // ── Which engine a key comes from ───────────────────────────────────

  /** The key in a completed round's result, if that is what it holds. */
  function FinishedKey(r: RoundResult): (k: Option<ClientPayload>)
    ensures k.Some? ==> k.value.KeyFields?
  {
    if IsCompleted(r) && r.payload.Some? && r.payload.value.KeyFields? then r.payload else None
  }

  type Oracle = (nat, EngineCall) -> RoundResult

  /** The DKLs23 engine writes its own curve into a finished keygen. */
  ghost predicate NamesSecp(secp: Oracle) {
    forall n: nat, c: EngineCall :: c.op.Keygen? && FinishedKey(secp(n, c)).Some? ==>
      FinishedKey(secp(n, c)).value.curve == Some(Secp256k1)
  }

  /** A turn in FROST names ed25519 in a finished key, and any other is the DKLs23 engine's answer. */
  ghost predicate ResultOf(t: Turn, secp: Oracle) {
    if t.ran.viaFrost then FinishedKey(t.ran.result).Some? ==> FinishedKey(t.ran.result).value.curve == Some(Ed25519)
    else exists n: nat :: t.ran.result == secp(n, EngineCall(Op.Keygen, t.ran.sid, t.ran.round, t.ran.text))
  }

  /** A keygen stays in the engine that ran round 1, if that is FROST or FROST did not hold the session id
      (`held`) before. */
  ghost predicate OneEngine(turns: seq<Turn>, k: Key, held: bool, sessions: Sessions, secp: Oracle) {
    turns != [] ==>
      var first, last := turns[0].ran.viaFrost, turns[|turns| - 1];
      && ResultOf(last, secp)
      && (first && IsContinue(last.ran.result) ==> k in sessions)
      && (!first && !held ==> k !in sessions)
      && (first || !held ==> last.ran.viaFrost == first)
  }

  lemma EngineBegins(t: Turn, k: Key, library: FE.LibCall -> F.Answer, payload: Option<Bytes>, secp: Oracle,
      before: Sessions, after: Sessions)
    requires ResultOf(t, secp) && (!t.ran.viaFrost ==> after == before)
    requires t.ran.viaFrost ==> Rounds(library, k, 1, payload, before, after, t.ran.result)
    ensures OneEngine([t], k, k in before, after, secp)
  {
  }

  lemma EngineGoesOn(turns: seq<Turn>, t: Turn, k: Key, held: bool, library: FE.LibCall -> F.Answer,
      payload: Option<Bytes>, secp: Oracle, before: Sessions, after: Sessions)
    requires OneEngine(turns, k, held, before, secp) && turns != [] && IsContinue(turns[|turns| - 1].ran.result)
    requires ResultOf(t, secp) && t.ran.viaFrost == (k in before) && (!t.ran.viaFrost ==> after == before)
    requires t.ran.viaFrost ==> Rounds(library, k, t.ran.round, payload, before, after, t.ran.result)
    ensures OneEngine(turns + [t], k, held, after, secp)
  {
  }

  class Client {
    const bridge: Bridge
    const transport: seq<Reply>     // the answers of the server, one for each request id from 1
    var requestId: nat
    ghost var turns: seq<Turn>      // of the last call

    constructor (bridge: Bridge, transport: seq<Reply>)
      ensures this.bridge == bridge && this.transport == transport && requestId == 0
    {
      this.bridge, this.transport := bridge, transport;
      requestId, turns := 0, [];
    }

    /** `_rpcCall`: a fresh id, then the first thing that goes wrong.  After the last of `transport` no
        answer comes. */
    method RpcCall(m: Method, round: int, opening: Option<Opening>, sessionId: Option<string>,
        clientPayload: Option<ClientPayload>)
      returns (r: Result<Data, ClientError>, rpc: Rpc)
      modifies this`requestId
      ensures requestId == old(requestId) + 1 && rpc == Rpc(requestId, m, round, opening, sessionId, clientPayload)
      ensures r.Ok? <==> requestId <= |transport| && transport[requestId - 1].Response? && transport[requestId - 1].result.Some?
      ensures r.Ok? ==> transport[requestId - 1] == Response(Some(r.value))
      ensures requestId <= |transport| && transport[requestId - 1].RpcError? ==>
                r == Err(RpcFailed(transport[requestId - 1].code, transport[requestId - 1].message))
    {
      requestId := requestId + 1;
      rpc := Rpc(requestId, m, round, opening, sessionId, clientPayload);
      if requestId > |transport| { return Err(TransportFailed), rpc; }
      match transport[requestId - 1]
      case TransportThrows => r := Err(TransportFailed);
      case NotJson => r := Err(InvalidResponse);
      case RpcError(code, message) => r := Err(RpcFailed(code, message));
      case Response(result) => r := if result.None? then Err(MissingResult) else Ok(result.value);
    }

    /** The engine threw, or `_checkProtocolError` does. */
    function Check(r: RoundResult): Option<ClientError> {
      if r.Thrown? then Some(EngineThrew) else if r.status.Failed? then Some(ProtocolError) else None
    }

    /** What is known of the turns at any time: they are in order, there are none exactly if the server
        has opened no session, and the first went to FROST exactly if the curve it was routed by, that of
        the share or else of the first answer's envelope, is ed25519. */
    ghost predicate Sound(before: nat, m: Method, o: Opening, share: Option<Curve>)
      reads this
    {
      && TurnsOk(turns, before, m, o, transport)
      && (turns == [] <==> FirstAnswer(transport, before).None?)
      && (turns != [] ==> (turns[0].ran.viaFrost <==> RoutedBy(bridge.parsers, transport, before, share).Ed25519?))
    }

    /** Between turns: the last turn's result is `current`. */
    ghost predicate Driving(before: nat, m: Method, k: Key, current: RoundResult)
      reads this, bridge, bridge.frost
    {
      && turns != [] && requestId == before + |turns| && requestId <= |transport| && current.Round?
      && turns[0].data.sessionId == Some(k.sid) && turns[|turns| - 1].ran.result == current
      && (!m.SignMethod? && Orderly(bridge.frost.library) ==>
            Story(turns, k, bridge.parsers, bridge.frost.library, bridge.frost.sessions))
    }

    /** No turn, or no result: what a driver that gives up leaves. */
    ghost predicate Unfinished()
      reads this
    {
      turns != [] ==> !IsCompleted(turns[|turns| - 1].ran.result)
    }

    // ── Keygen ────────────────────────────────────────────────────────

    ghost predicate InOneEngine(k: Key, held: bool)
      reads this, bridge, bridge.frost
    {
      OneEngine(turns, k, held, bridge.frost.sessions, bridge.secp)
    }

    /** Outside FROST the first turn has the DKLs23 engine's answer. */
    ghost predicate AskedSecp()
      reads this, bridge
    {
      turns != [] && !turns[0].ran.viaFrost ==>
        exists n: nat :: turns[0].ran.result == bridge.secp(n, EngineCall(Op.Keygen, turns[0].ran.sid, 1, turns[0].ran.text))
    }

    /** Round 1 of `keygen`. */
    method KeygenStart(curve: Curve) returns (r: Result<RoundResult, ClientError>, sid: string)
      requires bridge.Valid()
      modifies this, bridge, bridge.frost
      ensures bridge.Valid() && requestId == old(requestId) + 1 && Sound(old(requestId), KeygenMethod, NewKey(curve), None)
      ensures r.Ok? ==> |turns| == 1 && Driving(old(requestId), KeygenMethod, Key(Op.Keygen, sid), r.value)
                        && InOneEngine(Key(Op.Keygen, sid), Key(Op.Keygen, sid) in old(bridge.frost.sessions))
      ensures r.Err? ==> Unfinished()
      ensures AskedSecp()
    {
      hide FI.Inv, Rounds;
      turns, sid := [], "";
      var first, rpc := RpcCall(KeygenMethod, 1, Some(NewKey(curve)), None, None);
      if first.Err? { return Err(first.error), sid; }
      if first.value.sessionId.None? { return Err(NoSessionId), sid; }
      sid := first.value.sessionId.value;
      var text := FirstText(first.value);
      ghost var sessions, k := bridge.frost.sessions, Key(Op.Keygen, sid);
      var current, viaFrost := bridge.Keygen(sid, 1, text);
      ghost var t := Turn(rpc, first.value, Ran(1, sid, text, viaFrost, current));
      turns := [t];
      StoryBegins(t, k, bridge.parsers, bridge.frost.library, sessions, bridge.frost.sessions);
      EngineBegins(t, k, bridge.frost.library, PayloadIn(bridge.parsers, text), bridge.secp, sessions, bridge.frost.sessions);
      r := if Check(current).Some? then Err(Check(current).value) else Ok(current);
    }

    /** One turn of the loop of `keygen`; the last one when the server has nothing more to send. */
    method KeygenTurn(ghost before: nat, ghost curve: Curve, ghost held: bool, sid: string, round: int, current: RoundResult)
      returns (r: Result<RoundResult, ClientError>, finishing: bool)
      requires bridge.Valid() && IsContinue(current) && Sound(before, KeygenMethod, NewKey(curve), None)
      requires Driving(before, KeygenMethod, Key(Op.Keygen, sid), current) && round == |turns| + 1
      requires InOneEngine(Key(Op.Keygen, sid), held)
      modifies this, bridge, bridge.frost
      ensures bridge.Valid() && requestId == old(requestId) + 1 && Sound(before, KeygenMethod, NewKey(curve), None)
      ensures turns != [] && turns[0] == old(turns)[0]
      ensures r.Ok? ==> Driving(before, KeygenMethod, Key(Op.Keygen, sid), r.value) && |turns| == old(|turns|) + 1
                        && InOneEngine(Key(Op.Keygen, sid), held)
      ensures r.Err? ==> Unfinished()
    {
      hide FI.Inv, Rounds, Story, Orderly, OneEngine, DetectCurve, PayloadIn, RoutedBy, FirstAnswer;
      finishing := false;
      var next, rpc := RpcCall(KeygenMethod, round, None, Some(sid), PayloadOfResult(current));
      if next.Err? { return Err(next.error), false; }
      finishing := next.value.serverPayload.None?;
      var text := TextOf(next.value);
      var ran := if finishing then 0 else round;
      ghost var sessions, k := bridge.frost.sessions, Key(Op.Keygen, sid);
      var result, viaFrost := bridge.Keygen(sid, ran, text);
      ghost var t := Turn(rpc, next.value, Ran(ran, sid, text, viaFrost, result));
      Extended(turns, t, before, KeygenMethod, NewKey(curve), transport);
      assert ResultOf(t, bridge.secp);
      hide ResultOf, TurnOk, TurnsOk;
      if Orderly(bridge.frost.library) {
        StoryGoesOn(turns, t, k, bridge.parsers, bridge.frost.library, sessions, bridge.frost.sessions);
      }
      EngineGoesOn(turns, t, k, held, bridge.frost.library, PayloadIn(bridge.parsers, text), bridge.secp, sessions,
          bridge.frost.sessions);
      turns := turns + [t];
      r := if Check(result).Some? then Err(Check(result).value) else Ok(result);
    }

    method Keygen(curve: Curve) returns (r: Result<ClientPayload, ClientError>)
      requires bridge.Valid()
      modifies this, bridge, bridge.frost
      ensures bridge.Valid() && requestId > old(requestId) && Sound(old(requestId), KeygenMethod, NewKey(curve), None)
      ensures r.Ok? <==> turns != [] && FinishedKey(turns[|turns| - 1].ran.result).Some?
      ensures r.Ok? ==> FinishedKey(turns[|turns| - 1].ran.result) == Some(r.value)
      ensures AskedSecp()
      ensures r.Ok? && RoutedBy(bridge.parsers, transport, old(requestId), None).Ed25519? && Orderly(bridge.frost.library) ==>
                Finished(turns, Key(Op.Keygen, turns[0].ran.sid), bridge.parsers, bridge.frost.library)
      ensures r.Ok? && NamesSecp(bridge.secp)
              && (RoutedBy(bridge.parsers, transport, old(requestId), None).Ed25519?
                  || Key(Op.Keygen, turns[0].ran.sid) !in old(bridge.frost.sessions)) ==>
                (r.value.curve == Some(curve) <==> RoutedBy(bridge.parsers, transport, old(requestId), None) == curve)
    {
      hide FI.Inv, Orderly;
      ghost var before := requestId;
      ghost var sessions := bridge.frost.sessions;
      var start, sid := KeygenStart(curve);
      if start.Err? { return Err(start.error); }
      ghost var k := Key(Op.Keygen, sid);
      ghost var held := k in sessions;
      var current, round, finished := start.value, 2, false;
      while IsContinue(current) && !finished
        invariant bridge.Valid() && Sound(before, KeygenMethod, NewKey(curve), None)
        invariant Driving(before, KeygenMethod, k, current) && InOneEngine(k, held) && AskedSecp()
        invariant finished || round == |turns| + 1
        decreases |transport| - requestId
      {
        var next, finishing := KeygenTurn(before, curve, held, sid, round, current);
        if next.Err? { return Err(next.error); }
        current, finished, round := next.value, finishing, round + 1;
      }
      assert TurnOk(turns, 0, before, KeygenMethod, NewKey(curve), transport);
      if IsCompleted(current) && current.payload.Some? {
        r := if current.payload.value.KeyFields? then Ok(current.payload.value) else Err(BadResult);
      } else {
        r := Err(UnexpectedState);
      }
    }

    // ── Recovery ──────────────────────────────────────────────────────

    /** Between turns of a recovery, in addition. */
    ghost predicate Carrying(k: Key, backup: Option<Share>, rotation: int)
      reads this, bridge, bridge.frost
    {
      Orderly(bridge.frost.library) ==> CarriedStory(turns, k, VkOf(backup), rotation, bridge.frost.sessions)
    }

    ghost predicate SoundRecovery(before: nat, mpcKeyId: string, backup: Option<Share>, rotation: int)
      reads this
    {
      Sound(before, RecoveryMethod, Opening.Rotation(mpcKeyId, rotation), Some(CurveOf(backup)))
    }

    method RecoverStart(mpcKeyId: string, backup: Option<Share>, rotation: int)
      returns (r: Result<RoundResult, ClientError>, sid: string)
      requires bridge.Valid()
      modifies this, bridge, bridge.frost
      ensures bridge.Valid() && requestId == old(requestId) + 1 && SoundRecovery(old(requestId), mpcKeyId, backup, rotation)
      ensures r.Ok? ==> |turns| == 1 && Driving(old(requestId), RecoveryMethod, Key(Op.Recover, sid), r.value)
                        && Carrying(Key(Op.Recover, sid), backup, rotation)
      ensures r.Err? ==> Unfinished()
    {
      hide FI.Inv, Rounds, Carries;
      turns, sid := [], "";
      var first, rpc := RpcCall(RecoveryMethod, 1, Some(Opening.Rotation(mpcKeyId, rotation)), None, None);
      if first.Err? { return Err(first.error), sid; }
      if first.value.sessionId.None? { return Err(NoSessionId), sid; }
      sid := first.value.sessionId.value;
      var text := FirstText(first.value);
      ghost var sessions, k := bridge.frost.sessions, Key(Op.Recover, sid);
      var current, viaFrost := bridge.Recover(sid, 1, text, backup, Some(rotation));
      ghost var t := Turn(rpc, first.value, Ran(1, sid, text, viaFrost, current));
      turns := [t];
      StoryBegins(t, k, bridge.parsers, bridge.frost.library, sessions, bridge.frost.sessions);
      CarriedBegins(t, k, bridge.frost.library, PayloadIn(bridge.parsers, text), VkOf(backup), rotation, sessions,
          bridge.frost.sessions);
      r := if Check(current).Some? then Err(Check(current).value) else Ok(current);
    }

    method RecoverTurn(ghost before: nat, ghost mpcKeyId: string, sid: string, round: int, current: RoundResult,
        ghost backup: Option<Share>, ghost rotation: int)
      returns (r: Result<RoundResult, ClientError>, finishing: bool)
      requires bridge.Valid() && IsContinue(current) && Carrying(Key(Op.Recover, sid), backup, rotation)
      requires SoundRecovery(before, mpcKeyId, backup, rotation)
      requires Driving(before, RecoveryMethod, Key(Op.Recover, sid), current) && round == |turns| + 1
      modifies this, bridge, bridge.frost
      ensures bridge.Valid() && requestId == old(requestId) + 1 && SoundRecovery(before, mpcKeyId, backup, rotation)
      ensures r.Ok? ==> Driving(before, RecoveryMethod, Key(Op.Recover, sid), r.value) && |turns| == old(|turns|) + 1
                        && Carrying(Key(Op.Recover, sid), backup, rotation)
      ensures r.Err? ==> Unfinished()
    {
      hide FI.Inv, Rounds, Story, Orderly, Carries, CarriedStory, PayloadIn, RoutedBy, FirstAnswer;
      finishing := false;
      var next, rpc := RpcCall(RecoveryMethod, round, None, Some(sid), PayloadOfResult(current));
      if next.Err? { return Err(next.error), false; }
      finishing := next.value.serverPayload.None?;
      var text := TextOf(next.value);
      var ran := if finishing then 0 else round;
      ghost var sessions, k := bridge.frost.sessions, Key(Op.Recover, sid);
      var result, viaFrost := bridge.Recover(sid, ran, text, None, None);
      ghost var t := Turn(rpc, next.value, Ran(ran, sid, text, viaFrost, result));
      if Orderly(bridge.frost.library) {
        CarriedGoesOn(turns, t, k, bridge.parsers, bridge.frost.library, VkOf(backup), rotation, sessions,
            bridge.frost.sessions);
        StoryGoesOn(turns, t, k, bridge.parsers, bridge.frost.library, sessions, bridge.frost.sessions);
      }
      Extended(turns, t, before, RecoveryMethod, Opening.Rotation(mpcKeyId, rotation), transport);
      turns := turns + [t];
      r := if Check(result).Some? then Err(Check(result).value) else Ok(result);
    }

    /** `decrypted` is the backup share, or the error of decrypting it, which ends the call at once. */
    method Recover(mpcKeyId: string, decrypted: Result<Option<Share>, ClientError>, rotation: int)
      returns (r: Result<ClientPayload, ClientError>)
      requires bridge.Valid()
      modifies this, bridge, bridge.frost
      ensures bridge.Valid()
      ensures decrypted.Err? ==> r == Err(decrypted.error) && requestId == old(requestId)
      ensures decrypted.Ok? ==> requestId > old(requestId) && SoundRecovery(old(requestId), mpcKeyId, decrypted.value, rotation)
      ensures decrypted.Ok? ==> (r.Ok? <==> turns != [] && FinishedKey(turns[|turns| - 1].ran.result).Some?)
      ensures r.Ok? ==> r.value == FinishedKey(turns[|turns| - 1].ran.result).value.(mpcKeyId := mpcKeyId)
      ensures r.Ok? && CurveOf(decrypted.value).Ed25519? && Orderly(bridge.frost.library) ==>
                && Finished(turns, Key(Op.Recover, turns[0].ran.sid), bridge.parsers, bridge.frost.library)
                && VkOf(decrypted.value) == Some(r.value.publicKey)
                && r.value.rotationVersion == F.NextVersion(rotation)
    {
      if decrypted.Err? { return Err(decrypted.error); }
      hide FI.Inv, Orderly;
      ghost var before := requestId;
      var start, sid := RecoverStart(mpcKeyId, decrypted.value, rotation);
      if start.Err? { return Err(start.error); }
      ghost var k := Key(Op.Recover, sid);
      var current, round, finished := start.value, 2, false;
      while IsContinue(current) && !finished
        invariant bridge.Valid() && SoundRecovery(before, mpcKeyId, decrypted.value, rotation)
        invariant Driving(before, RecoveryMethod, k, current) && Carrying(k, decrypted.value, rotation)
        invariant finished || round == |turns| + 1
        decreases |transport| - requestId
      {
        var next, finishing := RecoverTurn(before, mpcKeyId, sid, round, current, decrypted.value, rotation);
        if next.Err? { return Err(next.error); }
        current, finished, round := next.value, finishing, round + 1;
      }
      assert TurnOk(turns, 0, before, RecoveryMethod, Opening.Rotation(mpcKeyId, rotation), transport);
      if IsCompleted(current) && current.payload.Some? {
        var result := current.payload.value;
        if !result.KeyFields? { return Err(BadResult); }
        r := Ok(if result.mpcKeyId != mpcKeyId then result.(mpcKeyId := mpcKeyId) else result);
      } else {
        r := Err(UnexpectedState);
      }
    }

    // ── Signing ───────────────────────────────────────────────────────

    ghost predicate Signing(k: Key, message: Option<Bytes>)
      reads this, bridge, bridge.frost
    {
      SignStory(turns, k, bridge.parsers, message, bridge.frost.sessions)
    }

    ghost predicate SoundSigning(before: nat, mpcKeyId: string, messageHash: string, share: Option<Share>)
      reads this
    {
      Sound(before, Method.SignMethod, SignatureOf(mpcKeyId, messageHash), Some(CurveOf(share)))
    }

    method SignStart(mpcKeyId: string, messageHash: string, share: Option<Share>)
      returns (r: Result<RoundResult, ClientError>, sid: string)
      requires bridge.Valid()
      modifies this, bridge, bridge.frost
      ensures bridge.Valid() && requestId == old(requestId) + 1 && SoundSigning(old(requestId), mpcKeyId, messageHash, share)
      ensures r.Ok? ==> |turns| == 1 && Driving(old(requestId), Method.SignMethod, Key(Op.Sign, sid), r.value)
                        && Signing(Key(Op.Sign, sid), HexDecode(messageHash))
    {
      hide FI.Inv, SignRounds;
      turns, sid := [], "";
      var first, rpc := RpcCall(Method.SignMethod, 1, Some(SignatureOf(mpcKeyId, messageHash)), None, None);
      if first.Err? { return Err(first.error), sid; }
      if first.value.sessionId.None? { return Err(NoSessionId), sid; }
      sid := first.value.sessionId.value;
      var text := FirstText(first.value);
      ghost var sessions := bridge.frost.sessions;
      var current, viaFrost := bridge.Sign(sid, 1, text, share, HexDecode(messageHash));
      ghost var t := Turn(rpc, first.value, Ran(1, sid, text, viaFrost, current));
      turns := [t];
      SignBegins(t, Key(Op.Sign, sid), bridge.parsers, HexDecode(messageHash), sessions, bridge.frost.sessions);
      r := if Check(current).Some? then Err(Check(current).value) else Ok(current);
    }

    /** One turn of the loop of `sign`; without a server payload the engine is not asked. */
    method SignTurn(ghost before: nat, ghost mpcKeyId: string, ghost messageHash: string, ghost share: Option<Share>,
        sid: string, round: int, current: RoundResult)
      returns (r: Result<RoundResult, ClientError>, data: Option<Data>)
      requires bridge.Valid() && IsContinue(current) && Signing(Key(Op.Sign, sid), HexDecode(messageHash))
      requires SoundSigning(before, mpcKeyId, messageHash, share)
      requires Driving(before, Method.SignMethod, Key(Op.Sign, sid), current) && round == |turns| + 1
      modifies this, bridge, bridge.frost
      ensures bridge.Valid() && requestId == old(requestId) + 1 && SoundSigning(before, mpcKeyId, messageHash, share)
      ensures r.Ok? && data.None? ==> Driving(before, Method.SignMethod, Key(Op.Sign, sid), r.value)
                                      && |turns| == old(|turns|) + 1 && Signing(Key(Op.Sign, sid), HexDecode(messageHash))
      ensures r.Ok? && data.Some? ==> turns == old(turns) && r.value == current && requestId <= |transport|
                                      && transport[requestId - 1] == Response(data) && data.value.serverPayload.None?
    {
      hide FI.Inv, SignRounds, SignStory;
      var next, rpc := RpcCall(Method.SignMethod, round, None, Some(sid), PayloadOfResult(current));
      if next.Err? { return Err(next.error), None; }
      if next.value.serverPayload.None? { return Ok(current), Some(next.value); }
      data := None;
      var text := next.value.serverPayload.value;
      ghost var sessions, k := bridge.frost.sessions, Key(Op.Sign, sid);
      ghost var o := SignatureOf(mpcKeyId, messageHash);
      var result, viaFrost := bridge.Sign(sid, round, text, None, None);
      ghost var t := Turn(rpc, next.value, Ran(round, sid, text, viaFrost, result));
      assert TurnOk(turns, 0, before, Method.SignMethod, o, transport);
      SignGoesOn(turns, t, k, bridge.parsers, HexDecode(messageHash), sessions, bridge.frost.sessions);
      Extended(turns, t, before, Method.SignMethod, o, transport);
      turns := turns + [t];
      r := if Check(result).Some? then Err(Check(result).value) else Ok(result);
    }

    method Sign(mpcKeyId: string, messageHash: string, share: Option<Share>) returns (r: Result<SignResult, ClientError>)
      requires bridge.Valid()
      modifies this, bridge, bridge.frost
      ensures bridge.Valid() && requestId > old(requestId) && SoundSigning(old(requestId), mpcKeyId, messageHash, share)
      ensures r.Ok? && r.value.FromEngine? ==>
                turns != [] && turns[|turns| - 1].ran.result == Round(Complete, Some(r.value.payload))
      ensures r.Ok? && r.value.FromEngine? && CurveOf(share).Ed25519? ==>
                SignFinished(turns, bridge.parsers, HexDecode(messageHash))
      ensures r.Ok? && r.value.FromServer? ==>
                && requestId <= |transport| && transport[requestId - 1].Response? && transport[requestId - 1].result.Some?
                && transport[requestId - 1].result.value.completed && transport[requestId - 1].result.value.r == Some(r.value.r)
    {
      hide FI.Inv;
      ghost var before := requestId;
      var start, sid := SignStart(mpcKeyId, messageHash, share);
      if start.Err? { return Err(start.error); }
      ghost var k := Key(Op.Sign, sid);
      var current, round := start.value, 2;
      while IsContinue(current)
        invariant bridge.Valid() && SoundSigning(before, mpcKeyId, messageHash, share)
        invariant Driving(before, Method.SignMethod, k, current)
        invariant Signing(k, HexDecode(messageHash)) && round == |turns| + 1
        decreases |transport| - requestId
      {
        var next, data := SignTurn(before, mpcKeyId, messageHash, share, sid, round, current);
        if next.Err? { return Err(next.error); }
        if data.Some? {
          return if data.value.completed && data.value.r.Some? then Ok(FromServer(data.value.r.value)) else Err(UnexpectedState);
        }
        current, round := next.value, round + 1;
      }
      if IsCompleted(current) && current.payload.Some? {
        r := Ok(FromEngine(current.payload.value));
      } else {
        r := Err(UnexpectedState);
      }
    }
  }

  lemma SecondTurn(turns: seq<Turn>, before: nat, m: Method, o: Opening, transport: seq<Reply>)
    requires TurnsOk(turns, before, m, o, transport)
    ensures |turns| > 1 ==> IsContinue(turns[0].ran.result)
  {
    if |turns| > 1 { assert TurnOk(turns, 1, before, m, o, transport); }
  }

  /** A server whose envelopes name no curve: asked for an ed25519 key, the client returns a secp256k1 one. */
  method SecpKeyForEd25519() returns (r: Result<ClientPayload, ClientError>)
    ensures r.Ok? && r.value.KeyFields? && r.value.curve == Some(Secp256k1)
  {
    var frost := new FC.Engine(call => F.Refused);
    var unnamed := NewBatch("", Dkg, 1, 1, None, []);
    var parsers := Parsers(Json(e => [], text => Some(unnamed)), payload => SignParts(None, None));
    var key := KeyFields("", [], 1, Some(Secp256k1));
    var bridge := new Bridge(frost, parsers, (n, call) => Round(Complete, Some(key)), n => []);
    var answer := Data(Some(""), Some([]), false, None);
    var client := new Client(bridge, [Response(Some(answer))]);
    r := client.Keygen(Ed25519);
    SecondTurn(client.turns, 0, KeygenMethod, NewKey(Ed25519), client.transport);
  }
}

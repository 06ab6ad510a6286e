/** The FROST (ed25519) engine under concurrent callers.

    Every call of `keygen`, `sign`, `recover` and `export_private_key` is a flight that moves in
    atomic sections, cut where the code takes and releases the lock of a global map.  The three
    session maps are one map here, keyed by operation and session id.  What the cryptographic
    library answers is an argument of the section that calls it, so nothing is assumed of it.

    Library states and nonces are move-only values in the code; each gets an identity here. */
module FrostSessions {
  import opened Wrappers
  import opened SessionKeys

  /** A library state: its identity and the number of protocol parts run to get it. */
  datatype LibState = LibState(id: nat, parts: nat)

  datatype Session =
    | KeygenSession(lib: LibState, pending: Bytes)
    | SignSession(nonces: Option<nat>, message: Bytes, consumed: bool, signVk: Bytes)
    | RecoverySession(rlib: LibState, rpending: Bytes, version: int, createdAt: nat, vk: Bytes)

  /** What the pure prefix of a call makes of its arguments; `None` where it fails. */
  datatype Request =
    | KeygenRound1(sid: string, payload: Option<Bytes>)
    | KeygenRound2(sid: string, payload: Option<Bytes>)
    | KeygenFinalize(sid: string)
    | SignRound1(sid: string, commitments: Option<Bytes>, share: Option<Bytes>, message: Option<Bytes>)
    | SignRound2(sid: string, package: Option<Bytes>)
    | RecoverRound1(sid: string, payload: Option<Bytes>, backup: Option<Bytes>, rotation: Option<int>)
    | RecoverRound2(sid: string, payload: Option<Bytes>)
    | RecoverFinalize(sid: string)
    | Export(local: Option<Bytes>, server: Option<Bytes>)

  datatype Outcome =
    | Rejected
    | Continued
    | KeyReady(kvk: Bytes)
    | Signed
    | Rotated(rvk: Bytes, rversion: int, starter: nat)   // starter: history, the round-1 call
    | Exported(evk: Bytes)

  /** `Holding`: the session has been removed from its map and the library call lies ahead. */
  datatype Stage = Ready | Checked | Inserting(k: Key, x: Session) | Holding(hk: Key, h: Session)
                 | Registering(ek: Bytes) | Ended(outcome: Outcome)

  datatype Flight = Flight(req: Request, stage: Stage)

  /** What the library answers: an error, or success with a verifying key where one is produced. */
  datatype Answer = Refused | Granted(key: Bytes)

  // ── State ───────────────────────────────────────────────────────────

  datatype Store = Store(sessions: map<Key, Session>, exported: set<Bytes>, clock: nat)

  datatype Place = InMap(key: Key) | InFlight(call: nat) | Spent

  /** What an incarnation of a session starts from: its round-1 call, and for a recovery the
      verifying key of the backup share and the rotation version given there. */
  datatype Origin = Origin(inc: nat, starter: nat, vk: Bytes, version: int)

  /** History of one secret: where it is, the call that created it and the server payload (for
      signing, the message) that call stored with it. */
  datatype Info = Info(place: Place, key: Key, creator: nat, payload: Bytes, origin: Origin)

  /** A secret handed to the library for good, on what was stored with it, by which call. */
  datatype Use = Use(secret: nat, input: Bytes, user: nat)

  datatype History = History(info: map<nat, Info>, uses: seq<Use>, next: nat)

  datatype State = State(store: Store, flights: map<nat, Flight>, hist: History)

  const INIT := State(Store(map[], {}, 0), map[], History(map[], [], 0))

  datatype Action =
    | Begin(call: nat, req: Request)
    | Go(gcall: nat, answer: Answer)
    | Tick(seconds: nat)

  function SecretOf(x: Session): nat {
    match x
    case KeygenSession(lib, _) => lib.id
    case SignSession(nonces, _, _, _) => if nonces.Some? then nonces.value else 0
    case RecoverySession(lib, _, _, _, _) => lib.id
  }

  function PayloadOf(x: Session): Bytes {
    match x
    case KeygenSession(_, pending) => pending
    case SignSession(_, message, _, _) => message
    case RecoverySession(_, pending, _, _, _) => pending
  }

  /** The session a call is about; exports have none. */
  function KeyOf(r: Request): Option<Key> {
    match r
    case KeygenRound1(sid, _) => Some(Key(Keygen, sid))
    case KeygenRound2(sid, _) => Some(Key(Keygen, sid))
    case KeygenFinalize(sid) => Some(Key(Keygen, sid))
    case SignRound1(sid, _, _, _) => Some(Key(Sign, sid))
    case SignRound2(sid, _) => Some(Key(Sign, sid))
    case RecoverRound1(sid, _, _, _) => Some(Key(Recover, sid))
    case RecoverRound2(sid, _) => Some(Key(Recover, sid))
    case RecoverFinalize(sid) => Some(Key(Recover, sid))
    case Export(_, _) => None
  }

  // ── Pieces of a section ─────────────────────────────────────────────

  function At(s: State, c: nat, st: Stage): map<nat, Flight>
    requires c in s.flights
  {
    s.flights[c := Flight(s.flights[c].req, st)]
  }

  function End(s: State, c: nat, o: Outcome): State
    requires c in s.flights
  {
    s.(flights := At(s, c, Ended(o)))
  }

  function OriginOf(h: History, secret: nat): Origin {
    if secret in h.info then h.info[secret].origin else Origin(secret, 0, [], 0)
  }

  /** Move a secret, if it is known. */
  function Move(h: History, secret: nat, p: Place): History {
    if secret in h.info then h.(info := h.info[secret := h.info[secret].(place := p)]) else h
  }

  /** A new library state or nonce in the hands of call `c`, about to be inserted. */
  function Create(s: State, c: nat, k: Key, x: Session, o: Origin): State
    requires c in s.flights
  {
    var h := s.hist;
    State(s.store, At(s, c, Inserting(k, x)),
          h.(info := h.info[h.next := Info(InFlight(c), k, c, PayloadOf(x), o)], next := h.next + 1))
  }

  /** The first one of a new incarnation. */
  function Found(s: State, c: nat, k: Key, x: Session, vk: Bytes, version: int): State
    requires c in s.flights
  {
    Create(s, c, k, x, Origin(s.hist.next, c, vk, version))
  }

  /** Drop whatever session is stored under `k`. */
  function Clear(s: State, k: Key): State {
    if k !in s.store.sessions then s
    else State(s.store.(sessions := s.store.sessions - {k}), s.flights, Move(s.hist, SecretOf(s.store.sessions[k]), Spent))
  }

  /** Lock section: insert, dropping what was there. */
  function Insert(s: State, c: nat, k: Key, x: Session): State
    requires c in s.flights
  {
    var s1 := Clear(s, k);
    State(s1.store.(sessions := s1.store.sessions[k := x]), At(s1, c, Ended(Continued)), Move(s1.hist, SecretOf(x), InMap(k)))
  }

  /** Lock section: remove the session and hold it. */
  function Take(s: State, c: nat, k: Key): State
    requires c in s.flights
  {
    if k !in s.store.sessions then End(s, c, Rejected)
    else
      var x := s.store.sessions[k];
      State(s.store.(sessions := s.store.sessions - {k}), At(s, c, Holding(k, x)), Move(s.hist, SecretOf(x), InFlight(c)))
  }

  /** Lock section: drop an expired session. */
  function Evict(s: State, c: nat, k: Key): State
    requires c in s.flights
  {
    End(Clear(s, k), c, Rejected)
  }

  /** The held secret is given up without reaching the library. */
  function Discard(s: State, c: nat, x: Session): State
    requires c in s.flights
  {
    State(s.store, At(s, c, Ended(Rejected)), Move(s.hist, SecretOf(x), Spent))
  }

  /** The library has consumed the held secret, together with what was stored with it. */
  function Consume(s: State, c: nat, x: Session, o: Outcome): State
    requires c in s.flights
  {
    var h := Move(s.hist, SecretOf(x), Spent);
    State(s.store, At(s, c, Ended(o)), h.(uses := h.uses + [Use(SecretOf(x), PayloadOf(x), c)]))
  }

  /** Part 2 has answered: a new state of the same incarnation, stored with the new payload. */
  function Renew(s: State, c: nat, k: Key, x: Session, x': Session): State
    requires c in s.flights
  {
    Create(Consume(s, c, x, Rejected), c, k, x', OriginOf(s.hist, SecretOf(x)))
  }

  // ── Sections ────────────────────────────────────────────────────────

  /** First section of a call, up to and including its first lock. */
  function Start(s: State, c: nat, a: Answer): State
    requires c in s.flights
  {
    var id := s.hist.next;
    match s.flights[c].req
    case KeygenRound1(sid, payload) =>
      if payload.None? || a.Refused? then End(s, c, Rejected)
      else Found(s, c, Key(Keygen, sid), KeygenSession(LibState(id, 1), payload.value), [], 0)
    case KeygenRound2(sid, payload) =>
      if payload.None? then End(s, c, Rejected) else Take(s, c, Key(Keygen, sid))
    case KeygenFinalize(sid) => Take(s, c, Key(Keygen, sid))
    case SignRound1(sid, commitments, share, message) =>
      if commitments.None? || share.None? || message.None? then End(s, c, Rejected)
      else if share.value in s.store.exported then End(s, c, Rejected)
      else s.(flights := At(s, c, Checked))
    case SignRound2(sid, package) =>
      if package.None? then End(s, c, Rejected) else Take(s, c, Key(Sign, sid))
    case RecoverRound1(sid, payload, backup, rotation) =>
      if payload.None? || backup.None? || rotation.None? || a.Refused? then End(s, c, Rejected)
      else Found(s, c, Key(Recover, sid),
                 RecoverySession(LibState(id, 1), payload.value, rotation.value, s.store.clock, backup.value),
                 backup.value, rotation.value)
    case RecoverRound2(sid, payload) =>
      var k := Key(Recover, sid);
      if k !in s.store.sessions then End(s, c, Rejected)
      else if s.store.sessions[k].RecoverySession? && s.store.clock - s.store.sessions[k].createdAt > SESSION_TTL then
        Evict(s, c, k)
      else if payload.None? then End(s, c, Rejected)
      else s.(flights := At(s, c, Checked))
    case RecoverFinalize(sid) => Take(s, c, Key(Recover, sid))
    case Export(local, server) =>
      if local.None? || server.None? || local != server || a.Refused? then End(s, c, Rejected)
      else s.(flights := At(s, c, Registering(local.value)))
  }

  /** The section after the export check of signing, or after the expiry check of recovery. */
  function AfterCheck(s: State, c: nat): State
    requires c in s.flights
  {
    match s.flights[c].req
    case SignRound1(sid, _, Some(share), Some(message)) =>
      Found(s, c, Key(Sign, sid), SignSession(Some(s.hist.next), message, false, share), share, 0)
    case RecoverRound2(sid, _) => Take(s, c, Key(Recover, sid))
    case _ => s
  }

  /** The section of the library call, on the session in hand. */
  function Library(s: State, c: nat, k: Key, x: Session, a: Answer): State
    requires c in s.flights
  {
    var id := s.hist.next;
    match (s.flights[c].req, x)
    case (KeygenRound2(_, Some(payload)), KeygenSession(lib, _)) =>
      if a.Refused? then Consume(s, c, x, Rejected)
      else Renew(s, c, k, x, KeygenSession(LibState(id, lib.parts + 1), payload))
    case (KeygenFinalize(_), KeygenSession(_, _)) =>
      Consume(s, c, x, if a.Refused? then Rejected else KeyReady(a.key))
    case (SignRound2(_, Some(package)), SignSession(nonces, message, consumed, _)) =>
      if consumed || package != message || nonces.None? then Discard(s, c, x)
      else Consume(s, c, x, if a.Refused? then Rejected else Signed)
    case (RecoverRound2(_, Some(payload)), RecoverySession(lib, _, version, createdAt, vk)) =>
      if a.Refused? then Consume(s, c, x, Rejected)
      else Renew(s, c, k, x, RecoverySession(LibState(id, lib.parts + 1), payload, version, createdAt, vk))
    case (RecoverFinalize(_), RecoverySession(_, _, version, _, vk)) =>
      if a.Refused? || a.key != vk then Consume(s, c, x, Rejected)
      else Consume(s, c, x, Rotated(a.key, NextVersion(version), OriginOf(s.hist, SecretOf(x)).starter))
    case _ => Discard(s, c, x)
  }

  /** `current_rotation_version + 1` in an i32. */
  function NextVersion(v: int): int {
    if v == 0x7FFF_FFFF then -0x8000_0000 else v + 1
  }

  function Section(s: State, c: nat, a: Answer): State {
    if c !in s.flights then s
    else
      match s.flights[c].stage
      case Ready => Start(s, c, a)
      case Checked => AfterCheck(s, c)
      case Inserting(k, x) => Insert(s, c, k, x)
      case Holding(k, x) => Library(s, c, k, x, a)
      case Registering(vk) => State(s.store.(exported := s.store.exported + {vk}), At(s, c, Ended(Exported(vk))), s.hist)
      case Ended(_) => s
  }

  function Step(s: State, a: Action): State {
    match a
    case Begin(c, req) => if c in s.flights then s else s.(flights := s.flights[c := Flight(req, Ready)])
    case Go(c, answer) => Section(s, c, answer)
    case Tick(n) => s.(store := s.store.(clock := s.store.clock + n))
  }

  function Run(s: State, acts: seq<Action>): State
    decreases acts
  {
    if acts == [] then s else Run(Step(s, acts[0]), acts[1..])
  }
}

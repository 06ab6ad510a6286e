/** Where the values in a run come from: every library state, every library call and every result
    of the FROST engine traced back to the calls that supplied its inputs. */
module FrostTrace {
  import opened Wrappers
  import opened SessionKeys
  import opened FrostSessions
  import opened FrostInvariant

  predicate IsRound1(r: Request) {
    r.KeygenRound1? || r.SignRound1? || r.RecoverRound1?
  }

  /** The call is a round that stores `payload` (or, for signing, the message). */
  predicate Supplies(r: Request, payload: Bytes) {
    match r
    case KeygenRound1(_, p) => p == Some(payload)
    case KeygenRound2(_, p) => p == Some(payload)
    case SignRound1(_, _, _, m) => m == Some(payload)
    case RecoverRound1(_, p, _, _) => p == Some(payload)
    case RecoverRound2(_, p) => p == Some(payload)
    case _ => false
  }

  /** The call is the round 1 an incarnation of session `k` with this origin starts from. */
  predicate Starts(r: Request, k: Key, o: Origin) {
    && KeyOf(r) == Some(k)
    && match k.op
       case Keygen => r.KeygenRound1?
       case Sign => r.SignRound1? && r.share == Some(o.vk)
       case Recover => r.RecoverRound1? && r.backup == Some(o.vk) && r.rotation == Some(o.version)
  }

  ghost predicate InfoTraced(flights: map<nat, Flight>, i: Info) {
    && i.creator in flights && i.origin.starter in flights
    && KeyOf(flights[i.creator].req) == Some(i.key)
    && Supplies(flights[i.creator].req, i.payload)
    && Starts(flights[i.origin.starter].req, i.key, i.origin)
  }

  ghost predicate UseTraced(flights: map<nat, Flight>, info: map<nat, Info>, u: Use) {
    && u.user in flights && u.secret in info
    && KeyOf(flights[u.user].req) == Some(info[u.secret].key)
    && (info[u.secret].key.op.Sign? ==>
          flights[u.user].req.SignRound2? && flights[u.user].req.package == Some(u.input))
  }

  /** A rotation completes the recovery some call started with this key and the version before. */
  ghost predicate RotationTraced(flights: map<nat, Flight>, r: Request, vk: Bytes, version: int, starter: nat) {
    && starter in flights
    && var r0 := flights[starter].req;
       && r0.RecoverRound1? && r.RecoverFinalize? && r0.sid == r.sid
       && r0.backup == Some(vk) && r0.rotation.Some? && version == NextVersion(r0.rotation.value)
  }

  ghost predicate StageTraced(s: State, f: Flight) {
    match f.stage
    case Inserting(k, _) => KeyOf(f.req) == Some(k)
    case Holding(k, _) => KeyOf(f.req) == Some(k)
    case Ended(Rotated(vk, version, starter)) => RotationTraced(s.flights, f.req, vk, version, starter)
    case Ended(Exported(vk)) => vk in s.store.exported
    case _ => true
  }

  ghost predicate Traced(s: State) {
    && (forall t :: t in s.hist.info ==> InfoTraced(s.flights, s.hist.info[t]))
    && (forall i :: 0 <= i < |s.hist.uses| ==> UseTraced(s.flights, s.hist.info, s.hist.uses[i]))
    && (forall c :: c in s.flights ==> StageTraced(s, s.flights[c]))
  }

  // ── Nothing that was recorded changes ───────────────────────────────

  ghost predicate Later(s: State, t: State) {
    && (forall c :: c in s.flights ==> c in t.flights && t.flights[c].req == s.flights[c].req)
    && (forall u :: u in s.hist.info ==>
          u in t.hist.info && t.hist.info[u] == s.hist.info[u].(place := t.hist.info[u].place))
    && s.store.exported <= t.store.exported
    && s.hist.uses <= t.hist.uses && s.hist.next <= t.hist.next
  }

  lemma LaterTrans(s: State, t: State, u: State)
    requires Later(s, t) && Later(t, u)
    ensures Later(s, u)
  {
  }

  lemma StageLater(s: State, c: nat, st: Stage)
    requires c in s.flights
    ensures Later(s, s.(flights := At(s, c, st)))
  {
  }

  lemma ClearLater(s: State, k: Key)
    ensures Later(s, Clear(s, k))
  {
  }

  lemma InsertLater(s: State, c: nat, k: Key, x: Session)
    requires c in s.flights
    ensures Later(s, Insert(s, c, k, x))
  {
    ClearLater(s, k);
    var s1 := Clear(s, k);
    assert Later(s1, Insert(s, c, k, x));
    LaterTrans(s, s1, Insert(s, c, k, x));
  }

  lemma TakeLater(s: State, c: nat, k: Key)
    requires c in s.flights
    ensures Later(s, Take(s, c, k))
  {
  }

  lemma CreateLater(s: State, c: nat, k: Key, x: Session, o: Origin)
    requires c in s.flights && s.hist.next !in s.hist.info
    ensures Later(s, Create(s, c, k, x, o))
  {
  }

  lemma DiscardLater(s: State, c: nat, x: Session)
    requires c in s.flights
    ensures Later(s, Discard(s, c, x))
  {
  }

  lemma ConsumeLater(s: State, c: nat, x: Session, o: Outcome)
    requires c in s.flights
    ensures Later(s, Consume(s, c, x, o))
  {
  }

  lemma StartLater(s: State, c: nat, a: Answer)
    requires HistoryOk(s.hist) && c in s.flights
    ensures Later(s, Start(s, c, a))
  {
    var r := s.flights[c].req;
    StageLater(s, c, Ended(Rejected));
    if Start(s, c, a) == End(s, c, Rejected) { return; }
    var id, k := s.hist.next, KeyOf(r);
    match r
    case KeygenRound1(_, payload) =>
      CreateLater(s, c, k.value, KeygenSession(LibState(id, 1), payload.value), Origin(id, c, [], 0));
    case KeygenRound2(_, _) => TakeLater(s, c, k.value);
    case KeygenFinalize(_) => TakeLater(s, c, k.value);
    case SignRound1(_, _, _, _) => StageLater(s, c, Checked);
    case SignRound2(_, _) => TakeLater(s, c, k.value);
    case RecoverRound1(_, payload, backup, rotation) =>
      CreateLater(s, c, k.value, RecoverySession(LibState(id, 1), payload.value, rotation.value, s.store.clock, backup.value),
                  Origin(id, c, backup.value, rotation.value));
    case RecoverRound2(_, _) =>
      StageLater(s, c, Checked);
      ClearLater(s, k.value);
      StageLater(Clear(s, k.value), c, Ended(Rejected));
      LaterTrans(s, Clear(s, k.value), Evict(s, c, k.value));
    case RecoverFinalize(_) => TakeLater(s, c, k.value);
    case Export(local, _) => StageLater(s, c, Registering(local.value));
  }

  lemma AfterCheckLater(s: State, c: nat)
    requires HistoryOk(s.hist) && c in s.flights
    ensures Later(s, AfterCheck(s, c))
  {
    match s.flights[c].req
    case SignRound1(sid, _, Some(share), Some(message)) =>
      CreateLater(s, c, Key(Sign, sid), SignSession(Some(s.hist.next), message, false, share), Origin(s.hist.next, c, share, 0));
    case RecoverRound2(sid, _) => TakeLater(s, c, Key(Recover, sid));
    case _ =>
  }

  lemma RenewLater(s: State, c: nat, k: Key, x: Session, x': Session)
    requires HistoryOk(s.hist) && c in s.flights
    ensures Later(s, Renew(s, c, k, x, x'))
  {
    ConsumeLater(s, c, x, Rejected);
    CreateLater(Consume(s, c, x, Rejected), c, k, x', OriginOf(s.hist, SecretOf(x)));
    LaterTrans(s, Consume(s, c, x, Rejected), Renew(s, c, k, x, x'));
  }

  lemma SectionLater(s: State, c: nat, a: Answer)
    requires HistoryOk(s.hist) && c in s.flights
    ensures Later(s, Section(s, c, a))
  {
    match s.flights[c].stage
    case Ready => StartLater(s, c, a);
    case Checked => AfterCheckLater(s, c);
    case Inserting(k, x) => InsertLater(s, c, k, x);
    case Holding(k, x) =>
      LibraryCases(s, c, k, x, a);
      DiscardLater(s, c, x);
      var st := Library(s, c, k, x, a).flights[c].stage;
      if st.Ended? { ConsumeLater(s, c, x, st.outcome); }
      else if st.Inserting? { RenewLater(s, c, k, x, st.x); }
    case Registering(vk) => StageLater(s, c, Ended(Exported(vk)));
    case Ended(_) =>
  }

  /** A step changes the stage of its own call only. */
  lemma OthersStay(s: State, a: Action, c: nat)
    requires c in s.flights && !(a.Go? && a.gcall == c)
    ensures c in Step(s, a).flights && Step(s, a).flights[c] == s.flights[c]
  {
    if a.Go? && a.gcall in s.flights && s.flights[a.gcall].stage.Holding? {
      LibraryCases(s, a.gcall, s.flights[a.gcall].stage.hk, s.flights[a.gcall].stage.h, a.answer);
    }
  }

  lemma StepLater(s: State, a: Action)
    requires HistoryOk(s.hist)
    ensures Later(s, Step(s, a))
  {
    if a.Go? && a.gcall in s.flights { SectionLater(s, a.gcall, a.answer); }
  }

  lemma {:induction false} RunLater(s: State, acts: seq<Action>)
    requires Inv(s)
    ensures Later(s, Run(s, acts))
    decreases acts
  {
    if acts != [] {
      var s1 := Step(s, acts[0]);
      InvStep(s, acts[0]);
      StepLater(s, acts[0]);
      RunLater(s1, acts[1..]);
      LaterTrans(s, s1, Run(s, acts));
    }
  }

  // ── Every run is traced ─────────────────────────────────────────────

  /** What is new in `t` is traced, so all of `t` is. */
  lemma TracedFrame(s: State, t: State, c: nat)
    requires Traced(s) && Later(s, t) && c in t.flights
    requires forall d :: d in t.flights && d != c ==> d in s.flights && t.flights[d] == s.flights[d]
    requires StageTraced(t, t.flights[c])
    requires forall u :: u in t.hist.info && u !in s.hist.info ==> InfoTraced(t.flights, t.hist.info[u])
    requires forall i :: |s.hist.uses| <= i < |t.hist.uses| ==> UseTraced(t.flights, t.hist.info, t.hist.uses[i])
    ensures Traced(t)
  {
    assert forall i :: 0 <= i < |s.hist.uses| ==> t.hist.uses[i] == s.hist.uses[i];
  }

  lemma StageOnlyTraced(s: State, c: nat, st: Stage)
    requires Traced(s) && c in s.flights
    requires StageTraced(s, Flight(s.flights[c].req, st))
    ensures Traced(s.(flights := At(s, c, st)))
  {
    StageLater(s, c, st);
    TracedFrame(s, s.(flights := At(s, c, st)), c);
  }

  lemma ClearTraced(s: State, c: nat, k: Key)
    requires Traced(s) && c in s.flights
    ensures Traced(Clear(s, k))
  {
    ClearLater(s, k);
    TracedFrame(s, Clear(s, k), c);
  }

  lemma InsertTraced(s: State, c: nat, k: Key, x: Session)
    requires Traced(s) && c in s.flights
    ensures Traced(Insert(s, c, k, x))
  {
    InsertLater(s, c, k, x);
    TracedFrame(s, Insert(s, c, k, x), c);
  }

  lemma TakeTraced(s: State, c: nat, k: Key)
    requires Traced(s) && c in s.flights && KeyOf(s.flights[c].req) == Some(k)
    ensures Traced(Take(s, c, k))
  {
    TakeLater(s, c, k);
    TracedFrame(s, Take(s, c, k), c);
  }

  lemma CreateTraced(s: State, c: nat, k: Key, x: Session, o: Origin)
    requires Traced(s) && c in s.flights && s.hist.next !in s.hist.info
    requires KeyOf(s.flights[c].req) == Some(k) && Supplies(s.flights[c].req, PayloadOf(x))
    requires o.starter in s.flights && Starts(s.flights[o.starter].req, k, o)
    ensures Traced(Create(s, c, k, x, o))
  {
    CreateLater(s, c, k, x, o);
    TracedFrame(s, Create(s, c, k, x, o), c);
  }

  lemma DiscardTraced(s: State, c: nat, x: Session)
    requires Traced(s) && c in s.flights
    ensures Traced(Discard(s, c, x))
  {
    DiscardLater(s, c, x);
    TracedFrame(s, Discard(s, c, x), c);
  }

  lemma ConsumeTraced(s: State, c: nat, k: Key, x: Session, o: Outcome)
    requires Traced(s) && Inv(s) && c in s.flights && s.flights[c].stage == Holding(k, x)
    requires k.op.Sign? ==> s.flights[c].req.SignRound2? && s.flights[c].req.package == Some(PayloadOf(x))
    requires StageTraced(s, Flight(s.flights[c].req, Ended(o)))
    ensures Traced(Consume(s, c, x, o))
  {
    var t := Consume(s, c, x, o);
    ConsumeLater(s, c, x, o);
    assert FlightOk(s.hist, c, s.flights[c]) && StageTraced(s, s.flights[c]);
    assert UseTraced(t.flights, t.hist.info, Use(SecretOf(x), PayloadOf(x), c));
    TracedFrame(s, t, c);
  }

  lemma RenewTraced(s: State, c: nat, k: Key, x: Session, x': Session)
    requires Traced(s) && Inv(s) && c in s.flights && s.flights[c].stage == Holding(k, x) && !k.op.Sign?
    requires Supplies(s.flights[c].req, PayloadOf(x'))
    ensures Traced(Renew(s, c, k, x, x'))
  {
    ConsumeTraced(s, c, k, x, Rejected);
    var s1 := Consume(s, c, x, Rejected);
    assert FlightOk(s.hist, c, s.flights[c]) && StageTraced(s, s.flights[c]);
    assert InfoTraced(s.flights, s.hist.info[SecretOf(x)]);
    ConsumeLater(s, c, x, Rejected);
    CreateTraced(s1, c, k, x', OriginOf(s.hist, SecretOf(x)));
  }

  lemma StartTraced(s: State, c: nat, a: Answer)
    requires Traced(s) && Inv(s) && c in s.flights
    ensures Traced(Start(s, c, a))
  {
    var r := s.flights[c].req;
    StageOnlyTraced(s, c, Ended(Rejected));
    if Start(s, c, a) == End(s, c, Rejected) { return; }
    var id, k := s.hist.next, KeyOf(r);
    match r
    case KeygenRound1(_, payload) =>
      CreateTraced(s, c, k.value, KeygenSession(LibState(id, 1), payload.value), Origin(id, c, [], 0));
    case KeygenRound2(_, _) => TakeTraced(s, c, k.value);
    case KeygenFinalize(_) => TakeTraced(s, c, k.value);
    case SignRound1(_, _, _, _) => StageOnlyTraced(s, c, Checked);
    case SignRound2(_, _) => TakeTraced(s, c, k.value);
    case RecoverRound1(_, payload, backup, rotation) =>
      CreateTraced(s, c, k.value, RecoverySession(LibState(id, 1), payload.value, rotation.value, s.store.clock, backup.value),
                   Origin(id, c, backup.value, rotation.value));
    case RecoverRound2(_, _) =>
      StageOnlyTraced(s, c, Checked);
      ClearTraced(s, c, k.value);
      StageOnlyTraced(Clear(s, k.value), c, Ended(Rejected));
    case RecoverFinalize(_) => TakeTraced(s, c, k.value);
    case Export(local, _) => StageOnlyTraced(s, c, Registering(local.value));
  }

  lemma AfterCheckTraced(s: State, c: nat)
    requires Traced(s) && Inv(s) && c in s.flights
    ensures Traced(AfterCheck(s, c))
  {
    match s.flights[c].req
    case SignRound1(sid, _, Some(share), Some(message)) =>
      CreateTraced(s, c, Key(Sign, sid), SignSession(Some(s.hist.next), message, false, share), Origin(s.hist.next, c, share, 0));
    case RecoverRound2(sid, _) => TakeTraced(s, c, Key(Recover, sid));
    case _ =>
  }

  lemma LibraryTraced(s: State, c: nat, k: Key, x: Session, a: Answer)
    requires Traced(s) && Inv(s) && c in s.flights && s.flights[c].stage == Holding(k, x)
    ensures Traced(Library(s, c, k, x, a))
  {
    assert FlightOk(s.hist, c, s.flights[c]) && StageTraced(s, s.flights[c]);
    assert InfoTraced(s.flights, s.hist.info[SecretOf(x)]);
    var t := Library(s, c, k, x, a);
    LibraryCases(s, c, k, x, a);
    if t == Discard(s, c, x) {
      DiscardTraced(s, c, x);
    } else if t.flights[c].stage.Ended? {
      ConsumeTraced(s, c, k, x, t.flights[c].stage.outcome);
    } else {
      RenewTraced(s, c, k, x, t.flights[c].stage.x);
    }
  }

  lemma TracedStep(s: State, a: Action)
    requires Traced(s) && Inv(s)
    ensures Traced(Step(s, a))
  {
    match a
    case Begin(c, req) =>
      if c !in s.flights {
        StepLater(s, a);
        TracedFrame(s, Step(s, a), c);
      }
    case Go(c, answer) =>
      if c in s.flights {
        match s.flights[c].stage
        case Ready => StartTraced(s, c, answer);
        case Checked => AfterCheckTraced(s, c);
        case Inserting(k, x) => InsertTraced(s, c, k, x);
        case Holding(k, x) => LibraryTraced(s, c, k, x, answer);
        case Registering(vk) =>
          StepLater(s, a);
          TracedFrame(s, Step(s, a), c);
        case Ended(_) =>
      }
    case Tick(_) =>
  }

  lemma {:induction false} TracedRun(s: State, acts: seq<Action>)
    requires Traced(s) && Inv(s)
    ensures Traced(Run(s, acts)) && Inv(Run(s, acts))
    decreases acts
  {
    if acts != [] {
      TracedStep(s, acts[0]);
      InvStep(s, acts[0]);
      TracedRun(Step(s, acts[0]), acts[1..]);
    }
  }
}

/** What every run of the FROST engine keeps. */
module FrostInvariant {
  import opened Wrappers
  import opened SessionKeys
  import opened FrostSessions

  predicate Typed(k: Key, x: Session) {
    match k.op case Keygen => x.KeygenSession? case Sign => x.SignSession? case Recover => x.RecoverySession?
  }

  /** The session's secret is at `p`, is untouched, and carries what was stored with it. */
  ghost predicate Holds(h: History, k: Key, x: Session, p: Place) {
    && Typed(k, x)
    && (x.SignSession? ==> x.nonces.Some? && !x.consumed)
    && SecretOf(x) in h.info
    && var i := h.info[SecretOf(x)];
       && i.place == p && i.key == k && i.payload == PayloadOf(x)
       && (x.RecoverySession? ==> i.origin.vk == x.vk && i.origin.version == x.version)
  }

  ghost predicate StoreOk(st: Store, h: History) {
    forall k :: k in st.sessions ==> Holds(h, k, st.sessions[k], InMap(k))
  }

  ghost predicate FlightOk(h: History, c: nat, f: Flight) {
    match f.stage
    case Inserting(k, x) => Holds(h, k, x, InFlight(c))
    case Holding(k, x) => Holds(h, k, x, InFlight(c))
    case _ => true
  }

  ghost predicate FlightsOk(flights: map<nat, Flight>, h: History) {
    forall c :: c in flights ==> FlightOk(h, c, flights[c])
  }

  predicate Alive(h: History, t: nat) {
    t in h.info && !h.info[t].place.Spent?
  }

  ghost predicate HistoryOk(h: History) {
    && (forall t :: t in h.info ==> t < h.next && h.info[t].origin.inc <= t)
    && (forall t, u :: Alive(h, t) && Alive(h, u) && h.info[t].origin.inc == h.info[u].origin.inc ==> t == u)
  }

  /** Every use was of a secret that is gone, on what was stored with it, and no secret twice. */
  ghost predicate UsesOk(h: History) {
    && (forall i :: 0 <= i < |h.uses| ==>
          && h.uses[i].secret in h.info
          && h.info[h.uses[i].secret].place.Spent?
          && h.uses[i].input == h.info[h.uses[i].secret].payload)
    && (forall i, j :: 0 <= i < j < |h.uses| ==> h.uses[i].secret != h.uses[j].secret)
  }

  ghost predicate Inv(s: State) {
    && StoreOk(s.store, s.hist) && FlightsOk(s.flights, s.hist)
    && HistoryOk(s.hist) && UsesOk(s.hist)
  }

  // ── The history by itself ───────────────────────────────────────────

  ghost predicate LogOk(h: History) {
    HistoryOk(h) && UsesOk(h)
  }

  lemma MoveLog(h: History, t: nat, p: Place)
    requires LogOk(h) && Alive(h, t)
    ensures LogOk(Move(h, t, p))
  {
    var h' := Move(h, t, p);
    assert forall u :: Alive(h', u) ==> Alive(h, u) && h'.info[u].origin.inc == h.info[u].origin.inc;
    assert forall i :: 0 <= i < |h.uses| ==> h.uses[i].secret != t;
  }

  lemma UseLog(h: History, t: nat, c: nat)
    requires LogOk(h) && Alive(h, t)
    ensures LogOk(Move(h, t, Spent).(uses := h.uses + [Use(t, h.info[t].payload, c)]))
  {
    MoveLog(h, t, Spent);
    assert forall i :: 0 <= i < |h.uses| ==> h.uses[i].secret != t;
  }

  /** A new secret may start an incarnation, or carry on one that has no living secret. */
  lemma FreshLog(h: History, i: Info)
    requires LogOk(h) && i.origin.inc <= h.next && (forall t :: Alive(h, t) ==> h.info[t].origin.inc != i.origin.inc)
    ensures LogOk(h.(info := h.info[h.next := i], next := h.next + 1))
  {
    var h' := h.(info := h.info[h.next := i], next := h.next + 1);
    assert forall u :: Alive(h', u) ==> u == h.next || (Alive(h, u) && h'.info[u] == h.info[u]);
    assert forall i :: 0 <= i < |h.uses| ==> h.uses[i].secret != h.next;
  }

  // ── Frames: what the rest of the state sees of a history change ─────

  /** `h'` says the same as `h` about every secret but `t`. */
  ghost predicate SameBut(h: History, h': History, t: nat) {
    forall u :: u in h.info && u != t ==> u in h'.info && h'.info[u] == h.info[u]
  }

  lemma StoreFrame(st: Store, h: History, h': History, t: nat)
    requires StoreOk(st, h) && SameBut(h, h', t)
    requires forall k :: k in st.sessions ==> SecretOf(st.sessions[k]) != t
    ensures StoreOk(st, h')
  {
  }

  lemma FlightsFrame(flights: map<nat, Flight>, h: History, h': History, t: nat, c: nat, st: Stage)
    requires FlightsOk(flights, h) && SameBut(h, h', t) && c in flights
    requires t in h.info ==> forall d :: d != c ==> h.info[t].place != InFlight(d)
    requires FlightOk(h', c, Flight(flights[c].req, st))
    ensures FlightsOk(flights[c := Flight(flights[c].req, st)], h')
  {
  }

  // ── The pieces keep the invariant ───────────────────────────────────

  lemma EndKeeps(s: State, c: nat, st: Stage)
    requires Inv(s) && c in s.flights && !st.Inserting? && !st.Holding?
    ensures Inv(s.(flights := At(s, c, st)))
  {
  }

  lemma CreateKeeps(s: State, c: nat, k: Key, x: Session, o: Origin)
    requires Inv(s) && c in s.flights && Typed(k, x) && SecretOf(x) == s.hist.next
    requires x.SignSession? ==> x.nonces.Some? && !x.consumed
    requires x.RecoverySession? ==> x.vk == o.vk && x.version == o.version
    requires o.inc <= s.hist.next && forall t :: Alive(s.hist, t) ==> s.hist.info[t].origin.inc != o.inc
    ensures Inv(Create(s, c, k, x, o))
  {
    var h, h' := s.hist, Create(s, c, k, x, o).hist;
    FreshLog(h, Info(InFlight(c), k, c, PayloadOf(x), o));
    StoreFrame(s.store, h, h', h.next);
    FlightsFrame(s.flights, h, h', h.next, c, Inserting(k, x));
  }

  lemma TakeKeeps(s: State, c: nat, k: Key)
    requires Inv(s) && c in s.flights
    ensures Inv(Take(s, c, k))
  {
    if k in s.store.sessions {
      var x := s.store.sessions[k];
      RemoveKeeps(s, c, k, InFlight(c), Holding(k, x));
    }
  }

  /** Removing a session and moving its secret elsewhere. */
  lemma RemoveKeeps(s: State, c: nat, k: Key, p: Place, st: Stage)
    requires Inv(s) && c in s.flights && k in s.store.sessions
    requires (p == InFlight(c) && st == Holding(k, s.store.sessions[k])) || (p == Spent && st == s.flights[c].stage)
    ensures Inv(State(s.store.(sessions := s.store.sessions - {k}), At(s, c, st),
                      Move(s.hist, SecretOf(s.store.sessions[k]), p)))
  {
    var h, t := s.hist, SecretOf(s.store.sessions[k]);
    var h', st' := Move(h, t, p), s.store.(sessions := s.store.sessions - {k});
    MoveLog(h, t, p);
    assert StoreOk(st', h);
    StoreFrame(st', h, h', t);
    FlightsFrame(s.flights, h, h', t, c, st);
  }

  lemma ClearKeeps(s: State, c: nat, k: Key)
    requires Inv(s) && c in s.flights
    ensures Inv(Clear(s, k))
  {
    if k in s.store.sessions {
      RemoveKeeps(s, c, k, Spent, s.flights[c].stage);
      assert At(s, c, s.flights[c].stage) == s.flights;
    }
  }

  lemma PutKeeps(s: State, c: nat, k: Key, x: Session)
    requires Inv(s) && c in s.flights && s.flights[c].stage == Inserting(k, x) && k !in s.store.sessions
    ensures Inv(Insert(s, c, k, x))
  {
    var h, t := s.hist, SecretOf(x);
    var h' := Move(h, t, InMap(k));
    MoveLog(h, t, InMap(k));
    StoreFrame(s.store, h, h', t);
    FlightsFrame(s.flights, h, h', t, c, Ended(Continued));
  }

  lemma InsertKeeps(s: State, c: nat, k: Key, x: Session)
    requires Inv(s) && c in s.flights && s.flights[c].stage == Inserting(k, x)
    ensures Inv(Insert(s, c, k, x))
  {
    ClearKeeps(s, c, k);
    PutKeeps(Clear(s, k), c, k, x);
  }

  lemma DiscardKeeps(s: State, c: nat, k: Key, x: Session)
    requires Inv(s) && c in s.flights && s.flights[c].stage == Holding(k, x)
    ensures Inv(Discard(s, c, x))
  {
    var h, t := s.hist, SecretOf(x);
    MoveLog(h, t, Spent);
    StoreFrame(s.store, h, Move(h, t, Spent), t);
    FlightsFrame(s.flights, h, Move(h, t, Spent), t, c, Ended(Rejected));
  }

  lemma ConsumeKeeps(s: State, c: nat, k: Key, x: Session, o: Outcome)
    requires Inv(s) && c in s.flights && s.flights[c].stage == Holding(k, x)
    ensures Inv(Consume(s, c, x, o))
  {
    var h, t := s.hist, SecretOf(x);
    var h' := Consume(s, c, x, o).hist;
    UseLog(h, t, c);
    StoreFrame(s.store, h, h', t);
    FlightsFrame(s.flights, h, h', t, c, Ended(o));
  }

  lemma RenewKeeps(s: State, c: nat, k: Key, x: Session, x': Session)
    requires Inv(s) && c in s.flights && s.flights[c].stage == Holding(k, x)
    requires Renews(x, x') && SecretOf(x') == s.hist.next
    ensures Inv(Renew(s, c, k, x, x'))
  {
    ConsumeKeeps(s, c, k, x, Rejected);
    NoOtherAlive(s.hist, SecretOf(x));
    CreateKeeps(Consume(s, c, x, Rejected), c, k, x', OriginOf(s.hist, SecretOf(x)));
  }

  /** Once the living secret of an incarnation is spent the incarnation has none. */
  lemma NoOtherAlive(h: History, t: nat)
    requires HistoryOk(h) && Alive(h, t)
    ensures forall u :: Alive(Move(h, t, Spent), u) ==> h.info[u].origin.inc != h.info[t].origin.inc
  {
    assert forall u :: Alive(Move(h, t, Spent), u) ==> Alive(h, u) && u != t;
  }

  // ── Every section keeps the invariant ───────────────────────────────

  lemma NextIsNew(h: History)
    requires HistoryOk(h)
    ensures forall t :: Alive(h, t) ==> h.info[t].origin.inc != h.next
  {
  }

  lemma StartKeygenKeeps(s: State, c: nat, a: Answer)
    requires Inv(s) && c in s.flights
    requires var r := s.flights[c].req; r.KeygenRound1? || r.KeygenRound2? || r.KeygenFinalize?
    ensures Inv(Start(s, c, a))
  {
    EndKeeps(s, c, Ended(Rejected));
    match s.flights[c].req
    case KeygenRound1(sid, payload) =>
      if payload.Some? && a.Granted? {
        var id := s.hist.next;
        NextIsNew(s.hist);
        CreateKeeps(s, c, Key(Keygen, sid), KeygenSession(LibState(id, 1), payload.value), Origin(id, c, [], 0));
      }
    case KeygenRound2(sid, payload) => TakeKeeps(s, c, Key(Keygen, sid));
    case KeygenFinalize(sid) => TakeKeeps(s, c, Key(Keygen, sid));
  }

  lemma StartRecoverKeeps(s: State, c: nat, a: Answer)
    requires Inv(s) && c in s.flights
    requires var r := s.flights[c].req; r.RecoverRound1? || r.RecoverRound2? || r.RecoverFinalize?
    ensures Inv(Start(s, c, a))
  {
    EndKeeps(s, c, Ended(Rejected));
    NextIsNew(s.hist);
    hide Inv;
    match s.flights[c].req
    case RecoverRound1(sid, payload, backup, rotation) =>
      if payload.Some? && backup.Some? && rotation.Some? && a.Granted? {
        var id := s.hist.next;
        CreateKeeps(s, c, Key(Recover, sid),
                    RecoverySession(LibState(id, 1), payload.value, rotation.value, s.store.clock, backup.value),
                    Origin(id, c, backup.value, rotation.value));
      }
    case RecoverRound2(sid, _) =>
      EndKeeps(s, c, Checked);
      ClearKeeps(s, c, Key(Recover, sid));
      EndKeeps(Clear(s, Key(Recover, sid)), c, Ended(Rejected));
    case RecoverFinalize(sid) => TakeKeeps(s, c, Key(Recover, sid));
  }

  lemma StartKeeps(s: State, c: nat, a: Answer)
    requires Inv(s) && c in s.flights
    ensures Inv(Start(s, c, a))
  {
    EndKeeps(s, c, Ended(Rejected));
    match s.flights[c].req
    case KeygenRound1(_, _) => StartKeygenKeeps(s, c, a);
    case KeygenRound2(_, _) => StartKeygenKeeps(s, c, a);
    case KeygenFinalize(_) => StartKeygenKeeps(s, c, a);
    case RecoverRound1(_, _, _, _) => StartRecoverKeeps(s, c, a);
    case RecoverRound2(_, _) => StartRecoverKeeps(s, c, a);
    case RecoverFinalize(_) => StartRecoverKeeps(s, c, a);
    case SignRound1(_, _, _, _) => EndKeeps(s, c, Checked);
    case SignRound2(sid, _) => TakeKeeps(s, c, Key(Sign, sid));
    case Export(local, _) => if local.Some? { EndKeeps(s, c, Registering(local.value)); }
  }

  lemma AfterCheckKeeps(s: State, c: nat)
    requires Inv(s) && c in s.flights
    ensures Inv(AfterCheck(s, c))
  {
    var id := s.hist.next;
    assert forall t :: Alive(s.hist, t) ==> s.hist.info[t].origin.inc != id;
    match s.flights[c].req
    case SignRound1(sid, _, Some(share), Some(message)) =>
      CreateKeeps(s, c, Key(Sign, sid), SignSession(Some(id), message, false, share), Origin(id, c, share, 0));
    case RecoverRound2(sid, _) => TakeKeeps(s, c, Key(Recover, sid));
    case _ =>
  }

  /** The library section ends in one of three ways. */
  lemma LibraryCases(s: State, c: nat, k: Key, x: Session, a: Answer)
    requires c in s.flights
    ensures var t := Library(s, c, k, x, a);
            || t == Discard(s, c, x)
            || (t.flights[c].stage.Ended? && t == Consume(s, c, x, t.flights[c].stage.outcome))
            || (t.flights[c].stage.Inserting? && t == Renew(s, c, k, x, t.flights[c].stage.x)
                && Renews(x, t.flights[c].stage.x) && SecretOf(t.flights[c].stage.x) == s.hist.next)
  {
  }

  predicate Renews(x: Session, x': Session) {
    || (x.KeygenSession? && x'.KeygenSession?)
    || (x.RecoverySession? && x'.RecoverySession? && x'.vk == x.vk && x'.version == x.version)
  }

  lemma LibraryKeeps(s: State, c: nat, k: Key, x: Session, a: Answer)
    requires Inv(s) && c in s.flights && s.flights[c].stage == Holding(k, x)
    ensures Inv(Library(s, c, k, x, a))
  {
    var t := Library(s, c, k, x, a);
    LibraryCases(s, c, k, x, a);
    if t == Discard(s, c, x) {
      DiscardKeeps(s, c, k, x);
    } else if t.flights[c].stage.Ended? {
      ConsumeKeeps(s, c, k, x, t.flights[c].stage.outcome);
    } else {
      RenewKeeps(s, c, k, x, t.flights[c].stage.x);
    }
  }

  lemma InvStep(s: State, a: Action)
    requires Inv(s)
    ensures Inv(Step(s, a))
  {
    if a.Go? && a.gcall in s.flights {
      var c := a.gcall;
      match s.flights[c].stage
      case Ready => StartKeeps(s, c, a.answer);
      case Checked => AfterCheckKeeps(s, c);
      case Inserting(k, x) => InsertKeeps(s, c, k, x);
      case Holding(k, x) => LibraryKeeps(s, c, k, x, a.answer);
      case Registering(vk) => EndKeeps(s, c, Ended(Exported(vk)));
      case Ended(_) =>
    }
  }

  lemma {:induction false} InvRun(s: State, acts: seq<Action>)
    requires Inv(s)
    ensures Inv(Run(s, acts))
    decreases acts
  {
    if acts != [] {
      InvStep(s, acts[0]);
      InvRun(Step(s, acts[0]), acts[1..]);
    }
  }
}

/** Which call stored what the library gets: within an incarnation of a session, always the round
    before, the one that last took the session's secret to the library, or else its round 1. */
module FrostDelay {
  import opened Wrappers
  import opened SessionKeys
  import opened FrostSessions
  import opened FrostInvariant
  import opened FrostTrace

  /** The use is of a secret of incarnation `inc`. */
  predicate IsOf(info: map<nat, Info>, u: Use, inc: nat) {
    u.secret in info && info[u.secret].origin.inc == inc
  }

  /** The last of these uses that is of incarnation `inc`. */
  function LastUse(info: map<nat, Info>, uses: seq<Use>, inc: nat): (last: Option<nat>)
    ensures match last
            case None => forall i :: 0 <= i < |uses| ==> !IsOf(info, uses[i], inc)
            case Some(j) =>
              j < |uses| && IsOf(info, uses[j], inc) && forall i :: j < i < |uses| ==> !IsOf(info, uses[i], inc)
    decreases |uses|
  {
    if uses == [] then None
    else if IsOf(info, uses[|uses| - 1], inc) then Some(|uses| - 1)
    else LastUse(info, uses[..|uses| - 1], inc)
  }

  /** The round before, after these uses: the call of the last use of the incarnation, or its round 1. */
  function RoundBefore(info: map<nat, Info>, uses: seq<Use>, o: Origin): nat {
    match LastUse(info, uses, o.inc) case Some(j) => uses[j].user case None => o.starter
  }

  // ── The history by itself ───────────────────────────────────────────

  /** Each living secret, and each used one at its use, was made by the round before. */
  ghost predicate DelayOk(h: History) {
    && (forall t :: Alive(h, t) ==> h.info[t].creator == RoundBefore(h.info, h.uses, h.info[t].origin))
    && (forall i :: 0 <= i < |h.uses| ==> MadeByRoundBefore(h, i))
  }

  ghost predicate MadeByRoundBefore(h: History, i: nat)
    requires i < |h.uses|
  {
    var t := h.uses[i].secret;
    t in h.info && h.info[t].creator == RoundBefore(h.info, h.uses[..i], h.info[t].origin)
  }

  /** The incarnations of the secrets in `uses` are the same in both. */
  ghost predicate SameOrigins(info: map<nat, Info>, info': map<nat, Info>, uses: seq<Use>) {
    forall i :: 0 <= i < |uses| ==>
      uses[i].secret in info && uses[i].secret in info' && info'[uses[i].secret].origin == info[uses[i].secret].origin
  }

  lemma {:induction false} LastUseSame(info: map<nat, Info>, info': map<nat, Info>, uses: seq<Use>, inc: nat)
    requires SameOrigins(info, info', uses)
    ensures LastUse(info', uses, inc) == LastUse(info, uses, inc)
    decreases |uses|
  {
    if uses != [] {
      LastUseSame(info, info', uses[..|uses| - 1], inc);
    }
  }

  lemma MadeSame(h: History, h': History, i: nat)
    requires i < |h.uses| && h.uses <= h'.uses && SameOrigins(h.info, h'.info, h.uses) && MadeByRoundBefore(h, i)
    requires h.uses[i].secret in h'.info && h'.info[h.uses[i].secret].creator == h.info[h.uses[i].secret].creator
    ensures MadeByRoundBefore(h', i)
  {
    assert h'.uses[..i] == h.uses[..i];
    LastUseSame(h.info, h'.info, h.uses[..i], h.info[h.uses[i].secret].origin.inc);
  }

  lemma MoveDelay(h: History, t: nat, p: Place)
    requires LogOk(h) && Alive(h, t) && DelayOk(h)
    ensures DelayOk(Move(h, t, p))
  {
    var h' := Move(h, t, p);
    forall u | Alive(h', u) ensures h'.info[u].creator == RoundBefore(h'.info, h'.uses, h'.info[u].origin) {
      assert Alive(h, u);
      LastUseSame(h.info, h'.info, h.uses, h.info[u].origin.inc);
    }
    forall i | 0 <= i < |h'.uses| ensures MadeByRoundBefore(h', i) { MadeSame(h, h', i); }
  }

  /** A use moves the round before on, for its own incarnation only. */
  lemma UseDelay(h: History, t: nat, c: nat, payload: Bytes)
    requires LogOk(h) && Alive(h, t) && DelayOk(h)
    ensures var h' := Move(h, t, Spent).(uses := h.uses + [Use(t, payload, c)]);
            DelayOk(h') && RoundBefore(h'.info, h'.uses, h.info[t].origin) == c
  {
    var u := Use(t, payload, c);
    var h' := Move(h, t, Spent).(uses := h.uses + [u]);
    var n := |h.uses|;
    assert h'.uses[..n] == h.uses && h'.uses[n] == u;
    forall v | Alive(h', v) ensures h'.info[v].creator == RoundBefore(h'.info, h'.uses, h'.info[v].origin) {
      assert Alive(h, v) && v != t;
      LastUseSame(h.info, h'.info, h.uses, h.info[v].origin.inc);
    }
    forall i | 0 <= i < |h'.uses| ensures MadeByRoundBefore(h', i) {
      if i < n { MadeSame(h, h', i); } else { LastUseSame(h.info, h'.info, h.uses, h.info[t].origin.inc); }
    }
  }

  lemma CreateDelay(h: History, i: Info)
    requires LogOk(h) && DelayOk(h) && i.creator == RoundBefore(h.info, h.uses, i.origin)
    ensures DelayOk(h.(info := h.info[h.next := i], next := h.next + 1))
  {
    var h' := h.(info := h.info[h.next := i], next := h.next + 1);
    forall u | Alive(h', u) ensures h'.info[u].creator == RoundBefore(h'.info, h'.uses, h'.info[u].origin) {
      assert u == h.next || Alive(h, u);
      LastUseSame(h.info, h'.info, h.uses, h'.info[u].origin.inc);
    }
    forall j | 0 <= j < |h'.uses| ensures MadeByRoundBefore(h', j) { MadeSame(h, h', j); }
  }

  /** A new incarnation has no uses yet. */
  lemma NewIncarnation(h: History, o: Origin)
    requires LogOk(h) && o.inc == h.next
    ensures RoundBefore(h.info, h.uses, o) == o.starter
  {
  }

  // ── Sections ────────────────────────────────────────────────────────

  lemma ClearDelay(s: State, k: Key)
    requires Inv(s) && DelayOk(s.hist)
    ensures DelayOk(Clear(s, k).hist)
  {
    if k in s.store.sessions {
      assert Holds(s.hist, k, s.store.sessions[k], InMap(k));
      MoveDelay(s.hist, SecretOf(s.store.sessions[k]), Spent);
    }
  }

  lemma TakeDelay(s: State, c: nat, k: Key)
    requires Inv(s) && c in s.flights && DelayOk(s.hist)
    ensures DelayOk(Take(s, c, k).hist)
  {
    if k in s.store.sessions {
      assert Holds(s.hist, k, s.store.sessions[k], InMap(k));
      MoveDelay(s.hist, SecretOf(s.store.sessions[k]), InFlight(c));
    }
  }

  lemma InsertDelay(s: State, c: nat, k: Key, x: Session)
    requires Inv(s) && c in s.flights && s.flights[c].stage == Inserting(k, x) && DelayOk(s.hist)
    ensures DelayOk(Insert(s, c, k, x).hist)
  {
    ClearDelay(s, k);
    ClearKeeps(s, c, k);
    var s1 := Clear(s, k);
    assert FlightOk(s1.hist, c, s1.flights[c]);
    MoveDelay(s1.hist, SecretOf(x), InMap(k));
  }

  lemma FoundDelay(s: State, c: nat, k: Key, x: Session, vk: Bytes, version: int)
    requires Inv(s) && c in s.flights && DelayOk(s.hist)
    ensures DelayOk(Found(s, c, k, x, vk, version).hist)
  {
    var o := Origin(s.hist.next, c, vk, version);
    NewIncarnation(s.hist, o);
    CreateDelay(s.hist, Info(InFlight(c), k, c, PayloadOf(x), o));
  }

  lemma StartDelay(s: State, c: nat, a: Answer)
    requires Inv(s) && c in s.flights && DelayOk(s.hist)
    ensures DelayOk(Start(s, c, a).hist)
  {
    hide Inv, DelayOk, Found, Take, Clear;
    match s.flights[c].req
    case KeygenRound1(_, _) => StartsIncarnation(s, c, a);
    case KeygenRound2(sid, _) => TakeDelay(s, c, Key(Keygen, sid));
    case KeygenFinalize(sid) => TakeDelay(s, c, Key(Keygen, sid));
    case SignRound2(sid, _) => TakeDelay(s, c, Key(Sign, sid));
    case RecoverRound1(_, _, _, _) => StartsIncarnation(s, c, a);
    case RecoverRound2(sid, _) => ClearDelay(s, Key(Recover, sid));
    case RecoverFinalize(sid) => TakeDelay(s, c, Key(Recover, sid));
    case _ =>
  }

  lemma StartsIncarnation(s: State, c: nat, a: Answer)
    requires Inv(s) && c in s.flights && DelayOk(s.hist)
    requires s.flights[c].req.KeygenRound1? || s.flights[c].req.RecoverRound1?
    ensures DelayOk(Start(s, c, a).hist)
  {
    var lib := LibState(s.hist.next, 1);
    hide Inv, DelayOk, Found, Take, Clear;
    match s.flights[c].req
    case KeygenRound1(sid, Some(payload)) => FoundDelay(s, c, Key(Keygen, sid), KeygenSession(lib, payload), [], 0);
    case RecoverRound1(sid, Some(payload), Some(backup), Some(rotation)) =>
      FoundDelay(s, c, Key(Recover, sid), RecoverySession(lib, payload, rotation, s.store.clock, backup),
                 backup, rotation);
    case _ =>
  }

  lemma AfterCheckDelay(s: State, c: nat)
    requires Inv(s) && c in s.flights && DelayOk(s.hist)
    ensures DelayOk(AfterCheck(s, c).hist)
  {
    match s.flights[c].req
    case SignRound1(sid, _, Some(share), Some(message)) =>
      FoundDelay(s, c, Key(Sign, sid), SignSession(Some(s.hist.next), message, false, share), share, 0);
    case RecoverRound2(sid, _) => TakeDelay(s, c, Key(Recover, sid));
    case _ =>
  }

  lemma ConsumeDelay(s: State, c: nat, k: Key, x: Session, o: Outcome)
    requires Inv(s) && c in s.flights && s.flights[c].stage == Holding(k, x) && DelayOk(s.hist)
    ensures var h := Consume(s, c, x, o).hist;
            DelayOk(h) && RoundBefore(h.info, h.uses, OriginOf(s.hist, SecretOf(x))) == c
  {
    assert FlightOk(s.hist, c, s.flights[c]);
    UseDelay(s.hist, SecretOf(x), c, PayloadOf(x));
  }

  lemma RenewDelay(s: State, c: nat, k: Key, x: Session, x': Session)
    requires Inv(s) && c in s.flights && s.flights[c].stage == Holding(k, x) && DelayOk(s.hist)
    ensures DelayOk(Renew(s, c, k, x, x').hist)
  {
    ConsumeDelay(s, c, k, x, Rejected);
    ConsumeKeeps(s, c, k, x, Rejected);
    hide Inv, DelayOk, Consume, RoundBefore;
    CreateDelay(Consume(s, c, x, Rejected).hist, Info(InFlight(c), k, c, PayloadOf(x'), OriginOf(s.hist, SecretOf(x))));
  }

  lemma DiscardDelay(s: State, c: nat, k: Key, x: Session)
    requires Inv(s) && c in s.flights && s.flights[c].stage == Holding(k, x) && DelayOk(s.hist)
    ensures DelayOk(Discard(s, c, x).hist)
  {
    assert FlightOk(s.hist, c, s.flights[c]);
    MoveDelay(s.hist, SecretOf(x), Spent);
  }

  lemma LibraryDelay(s: State, c: nat, k: Key, x: Session, a: Answer)
    requires Inv(s) && c in s.flights && s.flights[c].stage == Holding(k, x) && DelayOk(s.hist)
    ensures DelayOk(Library(s, c, k, x, a).hist)
  {
    LibraryCases(s, c, k, x, a);
    var st := Library(s, c, k, x, a).flights[c].stage;
    hide Inv, DelayOk, Library, Consume, Renew, Discard;
    DiscardDelay(s, c, k, x);
    if st.Ended? { ConsumeDelay(s, c, k, x, st.outcome); }
    else if st.Inserting? { RenewDelay(s, c, k, x, st.x); }
  }

  lemma DelayStep(s: State, a: Action)
    requires Inv(s) && DelayOk(s.hist)
    ensures DelayOk(Step(s, a).hist)
  {
    if a.Go? && a.gcall in s.flights {
      var c := a.gcall;
      hide Inv, DelayOk, Start, AfterCheck, Insert, Library;
      match s.flights[c].stage
      case Ready => StartDelay(s, c, a.answer);
      case Checked => AfterCheckDelay(s, c);
      case Inserting(k, x) => InsertDelay(s, c, k, x);
      case Holding(k, x) => LibraryDelay(s, c, k, x, a.answer);
      case _ =>
    }
  }

  // ── A call takes at most one secret to the library, and is no round 1 ─

  predicate PastLibrary(st: Stage) { st.Inserting? || st.Ended? }

  ghost predicate UsersOk(s: State) {
    && (forall i :: 0 <= i < |s.hist.uses| ==> UserOk(s, s.hist.uses[i].user))
    && (forall i, j :: 0 <= i < j < |s.hist.uses| ==> s.hist.uses[i].user != s.hist.uses[j].user)
  }

  predicate UserOk(s: State, c: nat) {
    c in s.flights && PastLibrary(s.flights[c].stage) && !IsRound1(s.flights[c].req)
  }

  /** What a section does to the uses and to its own call. */
  lemma SectionUses(s: State, c: nat, a: Answer)
    requires c in s.flights
    ensures var t := Section(s, c, a);
            && c in t.flights && t.flights[c].req == s.flights[c].req
            && (PastLibrary(s.flights[c].stage) ==> PastLibrary(t.flights[c].stage))
            && (t.hist.uses == s.hist.uses
                || (|t.hist.uses| == |s.hist.uses| + 1 && t.hist.uses[..|s.hist.uses|] == s.hist.uses
                    && t.hist.uses[|s.hist.uses|].user == c
                    && s.flights[c].stage.Holding? && UserOk(t, c)))
  {
    match s.flights[c].stage
    case Holding(k, x) =>
      LibraryRequest(s, c, k, x, a);
      LibraryCases(s, c, k, x, a);
    case _ =>
  }

  lemma LibraryRequest(s: State, c: nat, k: Key, x: Session, a: Answer)
    requires c in s.flights
    ensures Library(s, c, k, x, a) == Discard(s, c, x) || !IsRound1(s.flights[c].req)
  {
  }

  lemma UserStays(s: State, a: Action, c: nat)
    requires UserOk(s, c)
    ensures UserOk(Step(s, a), c)
  {
    if a.Go? && a.gcall == c {
      SectionUses(s, c, a.answer);
    } else {
      OthersStay(s, a, c);
    }
  }

  lemma UsersStep(s: State, a: Action)
    requires UsersOk(s)
    ensures UsersOk(Step(s, a))
  {
    var t := Step(s, a);
    forall i | 0 <= i < |s.hist.uses| ensures UserOk(t, s.hist.uses[i].user) { UserStays(s, a, s.hist.uses[i].user); }
    if a.Go? && a.gcall in s.flights {
      SectionUses(s, a.gcall, a.answer);
      hide Step, Section;
      forall i | 0 <= i < |t.hist.uses| ensures UserOk(t, t.hist.uses[i].user) {
        if i < |s.hist.uses| { assert t.hist.uses[i] == s.hist.uses[i]; }
      }
    }
  }

  lemma {:induction false} DelayRun(s: State, acts: seq<Action>)
    requires Inv(s) && DelayOk(s.hist) && UsersOk(s)
    ensures DelayOk(Run(s, acts).hist) && UsersOk(Run(s, acts))
    decreases acts
  {
    if acts != [] {
      DelayStep(s, acts[0]);
      UsersStep(s, acts[0]);
      InvStep(s, acts[0]);
      DelayRun(Step(s, acts[0]), acts[1..]);
    }
  }

  /** The round before is another call than the one that now has the secret. */
  lemma AnotherCall(s: State, i: nat)
    requires UsersOk(s) && i < |s.hist.uses| && MadeByRoundBefore(s.hist, i)
    requires var o := s.hist.info[s.hist.uses[i].secret].origin; o.starter in s.flights && IsRound1(s.flights[o.starter].req)
    ensures s.hist.info[s.hist.uses[i].secret].creator != s.hist.uses[i].user
  {
    var o := s.hist.info[s.hist.uses[i].secret].origin;
    var last := LastUse(s.hist.info, s.hist.uses[..i], o.inc);
    assert UserOk(s, s.hist.uses[i].user);
    if last.Some? { assert s.hist.uses[..i][last.value] == s.hist.uses[last.value]; }
  }
}

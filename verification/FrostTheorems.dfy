/** The guarantees of the FROST engine over all runs, under any interleaving of calls, any reuse of
    session ids and any answers of the library. */
module FrostTheorems {
  import opened Wrappers
  import opened SessionKeys
  import opened FrostSessions
  import opened FrostInvariant
  import opened FrostTrace
  import opened FrostDelay
  import FE = FrostEngine
  import Address
  import Sse

  lemma Reachable(acts: seq<Action>)
    ensures Inv(Run(INIT, acts)) && Traced(Run(INIT, acts))
  {
    TracedRun(INIT, acts);
  }

  // ── Linear use and the delay line ───────────────────────────────────

  /** No library state and no nonce reaches the library twice. */
  lemma SecretsUsedOnce(acts: seq<Action>, i: nat, j: nat)
    requires i < j < |Run(INIT, acts).hist.uses|
    ensures var uses := Run(INIT, acts).hist.uses; uses[i].secret != uses[j].secret
  {
    Reachable(acts);
  }

  /** The delay line: whenever a state goes to the library, what goes with it was stored by the previous
      round call of the same incarnation of the session.  That is the call of the last earlier use of the
      incarnation, or its round 1 if there was none; it is another call than the one that hands it over. */
  lemma DelayLine(acts: seq<Action>, i: nat)
    requires i < |Run(INIT, acts).hist.uses|
    ensures var s := Run(INIT, acts);
            var u := s.hist.uses[i];
            && u.secret in s.hist.info && u.user in s.flights
            && var made := s.hist.info[u.secret];
               var previous := match LastUse(s.hist.info, s.hist.uses[..i], made.origin.inc)
                               case Some(j) => s.hist.uses[j].user case None => made.origin.starter;
               && previous == made.creator && previous in s.flights && previous != u.user
               && Supplies(s.flights[previous].req, u.input)
               && KeyOf(s.flights[u.user].req) == KeyOf(s.flights[previous].req) == Some(made.key)
               && made.origin.starter in s.flights && Starts(s.flights[made.origin.starter].req, made.key, made.origin)
  {
    Reachable(acts);
    DelayRun(INIT, acts);
    var s := Run(INIT, acts);
    var u := s.hist.uses[i];
    assert UseTraced(s.flights, s.hist.info, u);
    assert InfoTraced(s.flights, s.hist.info[u.secret]);
    assert MadeByRoundBefore(s.hist, i);
    hide Inv, Traced, UsersOk, DelayOk, Run;
    AnotherCall(s, i);
    ByLastUse(s.hist, i);
  }

  lemma ByLastUse(h: History, i: nat)
    requires i < |h.uses| && MadeByRoundBefore(h, i)
    ensures var made := h.info[h.uses[i].secret];
            made.creator == match LastUse(h.info, h.uses[..i], made.origin.inc)
                            case Some(j) => h.uses[j].user case None => made.origin.starter
  {
  }

  /** A nonce reaches the signing call only with a package for the message given at round 1. */
  lemma NonceSignsItsMessage(acts: seq<Action>, i: nat)
    requires i < |Run(INIT, acts).hist.uses|
    requires var s := Run(INIT, acts);
             var t := s.hist.uses[i].secret; t in s.hist.info && s.hist.info[t].key.op.Sign?
    ensures var s := Run(INIT, acts);
            var u := s.hist.uses[i];
            && u.user in s.flights && s.hist.info[u.secret].creator in s.flights
            && var round1, round2 := s.flights[s.hist.info[u.secret].creator].req, s.flights[u.user].req;
               && round1.SignRound1? && round2.SignRound2? && round1.sid == round2.sid
               && round1.message.Some? && round2.package == round1.message
  {
    DelayLine(acts, i);
    Reachable(acts);
    var s := Run(INIT, acts);
    assert UseTraced(s.flights, s.hist.info, s.hist.uses[i]);
  }

  /** Stored sign sessions are always fresh, so the replay check in round 2 never has to fire. */
  lemma StoredSessionsAreFresh(acts: seq<Action>, k: Key)
    requires k in Run(INIT, acts).store.sessions
    ensures var x := Run(INIT, acts).store.sessions[k];
            && (k.op.Sign? <==> x.SignSession?) && (x.SignSession? ==> !x.consumed && x.nonces.Some?)
  {
    Reachable(acts);
    assert Holds(Run(INIT, acts).hist, k, Run(INIT, acts).store.sessions[k], InMap(k));
  }

  // ── A failed incarnation is finished ────────────────────────────────

  /** No call and no map holds a secret of incarnation `inc` any more. */
  ghost predicate Dead(h: History, inc: nat) {
    inc < h.next && forall t :: Alive(h, t) ==> h.info[t].origin.inc != inc
  }

  ghost predicate NoUseOf(s: State, t: State, inc: nat) {
    forall i :: |s.hist.uses| <= i < |t.hist.uses| ==>
      t.hist.uses[i].secret in t.hist.info && t.hist.info[t.hist.uses[i].secret].origin.inc != inc
  }

  ghost predicate StaysDead(s: State, t: State, inc: nat) {
    Dead(s.hist, inc) ==> Dead(t.hist, inc) && NoUseOf(s, t, inc)
  }

  lemma MoveDead(h: History, t: nat, p: Place, inc: nat)
    requires Alive(h, t) && Dead(h, inc)
    ensures Dead(Move(h, t, p), inc)
  {
    assert forall u :: Alive(Move(h, t, p), u) ==> Alive(h, u);
  }

  lemma ClearDead(s: State, k: Key, inc: nat)
    requires Inv(s)
    ensures StaysDead(s, Clear(s, k), inc)
  {
    if k in s.store.sessions && Dead(s.hist, inc) {
      assert Holds(s.hist, k, s.store.sessions[k], InMap(k));
      MoveDead(s.hist, SecretOf(s.store.sessions[k]), Spent, inc);
    }
  }

  lemma TakeDead(s: State, c: nat, k: Key, inc: nat)
    requires Inv(s) && c in s.flights
    ensures StaysDead(s, Take(s, c, k), inc)
  {
    if k in s.store.sessions && Dead(s.hist, inc) {
      assert Holds(s.hist, k, s.store.sessions[k], InMap(k));
      MoveDead(s.hist, SecretOf(s.store.sessions[k]), InFlight(c), inc);
    }
  }

  lemma InsertDead(s: State, c: nat, k: Key, x: Session, inc: nat)
    requires Inv(s) && c in s.flights && s.flights[c].stage == Inserting(k, x)
    ensures StaysDead(s, Insert(s, c, k, x), inc)
  {
    ClearDead(s, k, inc);
    ClearKeeps(s, c, k);
    var s1 := Clear(s, k);
    assert FlightOk(s1.hist, c, s1.flights[c]);
    if Dead(s1.hist, inc) { MoveDead(s1.hist, SecretOf(x), InMap(k), inc); }
  }

  lemma CreateDead(s: State, c: nat, k: Key, x: Session, o: Origin, inc: nat)
    requires Inv(s) && c in s.flights && (Dead(s.hist, inc) ==> o.inc != inc)
    ensures StaysDead(s, Create(s, c, k, x, o), inc)
  {
    var h, h' := s.hist, Create(s, c, k, x, o).hist;
    assert forall u :: Alive(h', u) ==> u == h.next || (Alive(h, u) && h'.info[u] == h.info[u]);
  }

  lemma DiscardDead(s: State, c: nat, k: Key, x: Session, inc: nat)
    requires Inv(s) && c in s.flights && s.flights[c].stage == Holding(k, x)
    ensures StaysDead(s, Discard(s, c, x), inc)
  {
    assert FlightOk(s.hist, c, s.flights[c]);
    if Dead(s.hist, inc) { MoveDead(s.hist, SecretOf(x), Spent, inc); }
  }

  lemma ConsumeDead(s: State, c: nat, k: Key, x: Session, o: Outcome, inc: nat)
    requires Inv(s) && c in s.flights && s.flights[c].stage == Holding(k, x)
    ensures StaysDead(s, Consume(s, c, x, o), inc)
  {
    assert FlightOk(s.hist, c, s.flights[c]);
    if Dead(s.hist, inc) { MoveDead(s.hist, SecretOf(x), Spent, inc); }
  }

  lemma StartDead(s: State, c: nat, a: Answer, inc: nat)
    requires Inv(s) && c in s.flights
    ensures StaysDead(s, Start(s, c, a), inc)
  {
    var r := s.flights[c].req;
    if Start(s, c, a).hist == s.hist { return; }
    var id, k := s.hist.next, KeyOf(r);
    match r
    case KeygenRound1(_, payload) =>
      CreateDead(s, c, k.value, KeygenSession(LibState(id, 1), payload.value), Origin(id, c, [], 0), inc);
    case KeygenRound2(_, _) => TakeDead(s, c, k.value, inc);
    case KeygenFinalize(_) => TakeDead(s, c, k.value, inc);
    case SignRound2(_, _) => TakeDead(s, c, k.value, inc);
    case RecoverRound1(_, payload, backup, rotation) =>
      CreateDead(s, c, k.value, RecoverySession(LibState(id, 1), payload.value, rotation.value, s.store.clock, backup.value),
                 Origin(id, c, backup.value, rotation.value), inc);
    case RecoverRound2(_, _) => ClearDead(s, k.value, inc);
    case RecoverFinalize(_) => TakeDead(s, c, k.value, inc);
    case _ =>
  }

  lemma AfterCheckDead(s: State, c: nat, inc: nat)
    requires Inv(s) && c in s.flights
    ensures StaysDead(s, AfterCheck(s, c), inc)
  {
    match s.flights[c].req
    case SignRound1(sid, _, Some(share), Some(message)) =>
      CreateDead(s, c, Key(Sign, sid), SignSession(Some(s.hist.next), message, false, share),
                 Origin(s.hist.next, c, share, 0), inc);
    case RecoverRound2(sid, _) => TakeDead(s, c, Key(Recover, sid), inc);
    case _ =>
  }

  lemma LibraryDead(s: State, c: nat, k: Key, x: Session, a: Answer, inc: nat)
    requires Inv(s) && c in s.flights && s.flights[c].stage == Holding(k, x)
    ensures StaysDead(s, Library(s, c, k, x, a), inc)
  {
    assert FlightOk(s.hist, c, s.flights[c]);
    var t := Library(s, c, k, x, a);
    LibraryCases(s, c, k, x, a);
    DiscardDead(s, c, k, x, inc);
    if t.flights[c].stage.Ended? {
      ConsumeDead(s, c, k, x, t.flights[c].stage.outcome, inc);
    } else if t.flights[c].stage.Inserting? {
      var s1 := Consume(s, c, x, Rejected);
      ConsumeDead(s, c, k, x, Rejected, inc);
      ConsumeKeeps(s, c, k, x, Rejected);
      assert Dead(s.hist, inc) ==> OriginOf(s.hist, SecretOf(x)).inc != inc;
      RenewDead(s, c, k, x, t.flights[c].stage.x, inc);
    }
  }

  lemma RenewDead(s: State, c: nat, k: Key, x: Session, x': Session, inc: nat)
    requires c in s.flights && Inv(s) && Inv(Consume(s, c, x, Rejected))
    requires Dead(s.hist, inc) ==> OriginOf(s.hist, SecretOf(x)).inc != inc
    requires StaysDead(s, Consume(s, c, x, Rejected), inc)
    ensures StaysDead(s, Renew(s, c, k, x, x'), inc)
  {
    if Dead(s.hist, inc) {
      CreateDead(Consume(s, c, x, Rejected), c, k, x', OriginOf(s.hist, SecretOf(x)), inc);
    }
  }

  lemma DeadStep(s: State, a: Action, inc: nat)
    requires Inv(s)
    ensures StaysDead(s, Step(s, a), inc)
  {
    if a.Go? && a.gcall in s.flights {
      var c := a.gcall;
      match s.flights[c].stage
      case Ready => StartDead(s, c, a.answer, inc);
      case Checked => AfterCheckDead(s, c, inc);
      case Inserting(k, x) => InsertDead(s, c, k, x, inc);
      case Holding(k, x) => LibraryDead(s, c, k, x, a.answer, inc);
      case _ =>
    }
  }

  /** Whatever happens later, a finished incarnation never reaches the library again. */
  lemma {:induction false} DeadForever(s: State, acts: seq<Action>, inc: nat)
    requires Inv(s) && Dead(s.hist, inc)
    ensures Dead(Run(s, acts).hist, inc) && NoUseOf(s, Run(s, acts), inc)
    decreases acts
  {
    if acts != [] {
      var s1 := Step(s, acts[0]);
      DeadStep(s, acts[0], inc);
      InvStep(s, acts[0]);
      DeadForever(s1, acts[1..], inc);
      StepLater(s, acts[0]);
      RunLater(s1, acts[1..]);
      UsesStay(s, s1, Run(s1, acts[1..]), inc);
    }
  }

  lemma UsesStay(s: State, s1: State, t: State, inc: nat)
    requires Later(s, s1) && Later(s1, t) && NoUseOf(s, s1, inc) && NoUseOf(s1, t, inc)
    ensures NoUseOf(s, t, inc)
  {
    forall i | |s.hist.uses| <= i < |t.hist.uses|
      ensures t.hist.uses[i].secret in t.hist.info && t.hist.info[t.hist.uses[i].secret].origin.inc != inc
    {
      if i < |s1.hist.uses| { assert t.hist.uses[i] == s1.hist.uses[i]; }
    }
  }

  /** A refusal by the library finishes the incarnation: after the removal it is never put back, and
      no later call of any kind gets it to the library. */
  lemma LibraryFailureIsFinal(before: seq<Action>, c: nat, after: seq<Action>)
    requires var s := Run(INIT, before); c in s.flights && s.flights[c].stage.Holding?
    ensures var s := Run(INIT, before);
            var t := Step(s, Go(c, Refused));
            var secret := SecretOf(s.flights[c].stage.h);
            && secret in s.hist.info && t.flights[c].stage == Ended(Rejected)
            && NoUseOf(t, Run(t, after), s.hist.info[secret].origin.inc)
  {
    Reachable(before);
    var s := Run(INIT, before);
    var k, x := s.flights[c].stage.hk, s.flights[c].stage.h;
    assert FlightOk(s.hist, c, s.flights[c]);
    var t := Step(s, Go(c, Refused));
    InvStep(s, Go(c, Refused));
    assert t == Discard(s, c, x) || t == Consume(s, c, x, Rejected);
    NoOtherAlive(s.hist, SecretOf(x));
    assert forall u :: Alive(t.hist, u) ==> Alive(Move(s.hist, SecretOf(x), Spent), u);
    DeadForever(t, after, s.hist.info[SecretOf(x)].origin.inc);
  }

  // ── Export lock and rotation ────────────────────────────────────────

  /** Successive completed recoveries, each started with the key and version the previous returned. */
  ghost predicate IsChain(s: State, calls: seq<nat>) {
    && (forall i :: 0 <= i < |calls| ==> calls[i] in s.flights && IsRotated(s.flights[calls[i]].stage))
    && (forall i :: 0 < i < |calls| ==> StartedFrom(s, calls[i], s.flights[calls[i - 1]].stage.outcome))
  }

  predicate IsRotated(st: Stage) {
    st.Ended? && st.outcome.Rotated?
  }

  /** Recovery `c` was started with the result `o`. */
  ghost predicate StartedFrom(s: State, c: nat, o: Outcome)
    requires c in s.flights && IsRotated(s.flights[c].stage) && o.Rotated?
  {
    var starter := s.flights[c].stage.outcome.starter;
    && starter in s.flights && s.flights[starter].req.RecoverRound1?
    && s.flights[starter].req.backup == Some(o.rvk) && s.flights[starter].req.rotation == Some(o.rversion)
  }

  /** The next version is one more, in an i32. */
  lemma NextVersionWraps(v: int, n: nat)
    requires Sse.IsI32(v)
    ensures NextVersion(Sse.Wrap32(v + n)) == Sse.Wrap32(v + n + 1)
    ensures Sse.Wrap32(v) == v
    ensures Sse.Wrap32(v + n) == v + n <==> v + n <= 0x7FFF_FFFF
  {
  }

  /** One completed recovery returns the key it was started with and the next version. */
  lemma RotationLink(acts: seq<Action>, c: nat)
    requires c in Run(INIT, acts).flights && IsRotated(Run(INIT, acts).flights[c].stage)
    ensures var s := Run(INIT, acts);
            var o := s.flights[c].stage.outcome;
            && o.starter in s.flights && s.flights[o.starter].req.RecoverRound1?
            && s.flights[o.starter].req.backup == Some(o.rvk) && s.flights[o.starter].req.rotation.Some?
            && o.rversion == NextVersion(s.flights[o.starter].req.rotation.value)
  {
    Reachable(acts);
    assert StageTraced(Run(INIT, acts), Run(INIT, acts).flights[c]);
  }

  /** A chain of n recoveries keeps the verifying key, hence the address, and adds one to the version
      each time, in an i32: from version v0 at the first round 1 it comes to v0 + n exactly if that does not
      exceed the largest i32. */
  lemma {:induction false} RotationChain(acts: seq<Action>, calls: seq<nat>)
    requires calls != [] && IsChain(Run(INIT, acts), calls)
    ensures var s := Run(INIT, acts);
            var first, last := s.flights[calls[0]].stage.outcome, s.flights[calls[|calls| - 1]].stage.outcome;
            && first.starter in s.flights && s.flights[first.starter].req.RecoverRound1?
            && var r0 := s.flights[first.starter].req;
               && r0.backup == Some(last.rvk) && r0.rotation.Some?
               && Address.DeriveSolanaAddress(last.rvk) == Address.DeriveSolanaAddress(first.rvk)
               && var v0, n := r0.rotation.value, |calls|;
                  Sse.IsI32(v0) ==>
                    && last.rversion == Sse.Wrap32(v0 + n)
                    && (last.rversion == v0 + n <==> v0 + n <= 0x7FFF_FFFF)
    decreases |calls|
  {
    hide Run;
    var s := Run(INIT, acts);
    var n := |calls|;
    RotationLink(acts, calls[n - 1]);
    if n > 1 {
      var shorter := calls[..n - 1];
      assert IsChain(s, shorter) by {
        assert forall i :: 0 <= i < n - 1 ==> shorter[i] == calls[i];
      }
      RotationChain(acts, shorter);
      assert StartedFrom(s, calls[n - 1], s.flights[calls[n - 2]].stage.outcome);
    }
    hide Sse.Wrap32, NextVersion;
    var v0 := s.flights[s.flights[calls[0]].stage.outcome.starter].req.rotation.value;
    if Sse.IsI32(v0) {
      NextVersionWraps(v0, n - 1);
      NextVersionWraps(v0, n);
    }
  }

  /** One run past the largest version, three calls one after the other: the recovery returns the smallest. */
  lemma LargestVersionWraps(sid: string, payload: Bytes, payload': Bytes, vk: Bytes)
    ensures var round1 := RecoverRound1(sid, Some(payload), Some(vk), Some(0x7FFF_FFFF));
            var acts := FE.Trace(0, round1, Granted(vk))
                        + (FE.Trace(1, RecoverRound2(sid, Some(payload')), Granted(vk))
                           + FE.Trace(2, RecoverFinalize(sid), Granted(vk)));
            var s := Run(INIT, acts);
            && 2 in s.flights && s.flights[2].stage == Ended(Rotated(vk, -0x8000_0000, 0)) && IsChain(s, [2])
            && 0 in s.flights && s.flights[0].req == round1
  {
    var a := Granted(vk);
    var r0, r1, r2 := RecoverRound1(sid, Some(payload), Some(vk), Some(0x7FFF_FFFF)),
                      RecoverRound2(sid, Some(payload')), RecoverFinalize(sid);
    var t0, t1, t2 := FE.Trace(0, r0, a), FE.Trace(1, r1, a), FE.Trace(2, r2, a);
    hide Run, FE.Trace, Inv, Step, NextVersion, KeyOf, Traced;
    RunInParts(INIT, t0, t1 + t2);
    RunInParts(Run(INIT, t0), t1, t2);
    TwoRounds(sid, payload, payload', vk);
    ThirdRound(Run(Run(INIT, t0), t1), sid, vk);
    RotationLink(t0 + (t1 + t2), 2);
  }

  lemma ThirdRound(s: State, sid: string, vk: Bytes)
    requires Inv(s) && s.flights.Keys == {0, 1} && s.flights[0].req.RecoverRound1? && !s.flights[1].req.RecoverRound1?
    requires var k := Key(Recover, sid);
             && k in s.store.sessions && s.store.sessions[k].RecoverySession?
             && s.store.sessions[k].vk == vk && s.store.sessions[k].version == 0x7FFF_FFFF
    ensures var t := FE.After(s, 2, RecoverFinalize(sid), Granted(vk));
            && t.flights.Keys == {0, 1, 2} && t.flights[0].req == s.flights[0].req
            && (forall c :: c in t.flights && t.flights[c].req.RecoverRound1? ==> c == 0)
            && t.flights[2].stage.Ended? && t.flights[2].stage.outcome.Rotated?
            && t.flights[2].stage.outcome.rvk == vk && t.flights[2].stage.outcome.rversion == -0x8000_0000
  {
    hide FE.After, Inv, Run, Step;
    WholeKeeps(s, 2, RecoverFinalize(sid), Granted(vk));
    FE.WholeRecoverFinalize(s, 2, sid, Granted(vk));
  }

  lemma TwoRounds(sid: string, payload: Bytes, payload': Bytes, vk: Bytes)
    ensures var round1, round2 := RecoverRound1(sid, Some(payload), Some(vk), Some(0x7FFF_FFFF)),
                                  RecoverRound2(sid, Some(payload'));
            var s := FE.After(FE.After(INIT, 0, round1, Granted(vk)), 1, round2, Granted(vk));
            && Inv(s) && s.flights.Keys == {0, 1} && s.flights[0].req == round1 && s.flights[1].req == round2
            && var k := Key(Recover, sid);
               k in s.store.sessions
               && s.store.sessions[k] == RecoverySession(LibState(1, 2), payload', 0x7FFF_FFFF, 0, vk)
  {
    var a := Granted(vk);
    var r0, r1 := RecoverRound1(sid, Some(payload), Some(vk), Some(0x7FFF_FFFF)), RecoverRound2(sid, Some(payload'));
    var s0 := FE.After(INIT, 0, r0, a);
    WholeKeeps(INIT, 0, r0, a);
    FE.WholeRecoverRound1(INIT, 0, sid, Some(payload), Some(vk), Some(0x7FFF_FFFF), a);
    hide Run, Step, Inv, FE.Trace, FE.After;
    WholeKeeps(s0, 1, r1, a);
    FE.WholeRecoverRound2(s0, 1, sid, Some(payload'), a);
  }

  /** A whole call adds its own flight. */
  lemma WholeKeeps(s: State, c: nat, r: Request, a: Answer)
    requires Inv(s) && c !in s.flights
    ensures var t := FE.After(s, c, r, a);
            && Inv(t) && t.flights.Keys == s.flights.Keys + {c} && t.flights[c].req == r
            && forall d :: d in s.flights ==> t.flights[d].req == s.flights[d].req
  {
    FE.WholeIsRun(s, c, r, a);
    InvRun(s, FE.Trace(c, r, a));
    var s1 := Step(s, Begin(c, r));
    hide Inv, Section;
    SameRequests(s1, c, a);
    var s2 := Section(s1, c, a);
    SameRequests(s2, c, a);
    var s3 := Section(s2, c, a);
    SameRequests(s3, c, a);
    SameRequests(Section(s3, c, a), c, a);
  }

  ghost predicate SameCalls(s: State, t: State) {
    t.flights.Keys == s.flights.Keys && forall d :: d in s.flights ==> t.flights[d].req == s.flights[d].req
  }

  lemma StartKeepsCalls(s: State, c: nat, a: Answer)
    requires c in s.flights
    ensures SameCalls(s, Start(s, c, a))
  {
  }

  lemma SameRequests(s: State, c: nat, a: Answer)
    ensures SameCalls(s, Section(s, c, a))
  {
    if c in s.flights {
      hide Start, Library;
      match s.flights[c].stage
      case Ready => StartKeepsCalls(s, c, a);
      case Holding(k, x) => LibraryCases(s, c, k, x, a);
      case _ =>
    }
  }

  lemma {:induction false} RunInParts(s: State, first: seq<Action>, rest: seq<Action>)
    ensures Run(s, first + rest) == Run(Run(s, first), rest)
    decreases first
  {
    if first == [] {
      assert first + rest == rest;
    } else {
      assert (first + rest)[1..] == first[1..] + rest;
      RunInParts(Step(s, first[0]), first[1..], rest);
    }
  }

  /** A stored recovery session carries the version and the key that the round 1 of its own incarnation was
      given. */
  lemma VersionCarried(acts: seq<Action>, sid: string)
    requires Key(Recover, sid) in Run(INIT, acts).store.sessions
    ensures var s := Run(INIT, acts);
            var x := s.store.sessions[Key(Recover, sid)];
            && x.RecoverySession? && SecretOf(x) in s.hist.info
            && var starter := s.hist.info[SecretOf(x)].origin.starter;
               && starter in s.flights && s.flights[starter].req.RecoverRound1? && s.flights[starter].req.sid == sid
               && s.flights[starter].req.rotation == Some(x.version) && s.flights[starter].req.backup == Some(x.vk)
  {
    Reachable(acts);
    var s := Run(INIT, acts);
    var k := Key(Recover, sid);
    assert Holds(s.hist, k, s.store.sessions[k], InMap(k));
    assert InfoTraced(s.flights, s.hist.info[SecretOf(s.store.sessions[k])]);
  }

  /** A round-1 signing call begun with an exported key creates no nonce and is never stored. */
  ghost predicate Locked(s: State, c: nat, vk: Bytes) {
    && vk in s.store.exported && c in s.flights
    && s.flights[c].req.SignRound1? && s.flights[c].req.share == Some(vk)
    && (s.flights[c].stage.Ready? || s.flights[c].stage == Ended(Rejected))
    && forall t :: t in s.hist.info ==> s.hist.info[t].creator != c
  }

  /** A new secret belongs to the call that made the step. */
  lemma NewSecretOwner(s: State, a: Action, u: nat)
    requires u in Step(s, a).hist.info && u !in s.hist.info
    ensures a.Go? && Step(s, a).hist.info[u].creator == a.gcall
  {
    if a.Go? && a.gcall in s.flights && s.flights[a.gcall].stage.Holding? {
      LibraryCases(s, a.gcall, s.flights[a.gcall].stage.hk, s.flights[a.gcall].stage.h, a.answer);
    }
  }

  lemma LockedStep(s: State, a: Action, c: nat, vk: Bytes)
    requires Inv(s) && Locked(s, c, vk)
    ensures Locked(Step(s, a), c, vk)
  {
    var t := Step(s, a);
    StepLater(s, a);
    if !(a.Go? && a.gcall == c) {
      OthersStay(s, a, c);
      forall u | u in t.hist.info ensures t.hist.info[u].creator != c {
        if u !in s.hist.info { NewSecretOwner(s, a, u); }
      }
    }
  }

  lemma {:induction false} LockedRun(s: State, acts: seq<Action>, c: nat, vk: Bytes)
    requires Inv(s) && Traced(s) && Locked(s, c, vk)
    ensures Locked(Run(s, acts), c, vk)
    decreases acts
  {
    if acts != [] {
      LockedStep(s, acts[0], c, vk);
      InvStep(s, acts[0]);
      TracedStep(s, acts[0]);
      LockedRun(Step(s, acts[0]), acts[1..], c, vk);
    }
  }

  /** The lock outlives rotation: once some export of a key has returned, no signing that begins
      later gets past round 1 — not with that key, and not with the key of any share that a chain
      of recoveries starting from it has returned. */
  lemma ExportLock(before: seq<Action>, exporter: nat, chain: seq<nat>, vk: Bytes,
                   c: nat, sid: string, commitments: Option<Bytes>, message: Option<Bytes>, after: seq<Action>)
    requires var s := Run(INIT, before);
             && exporter in s.flights && s.flights[exporter].stage.Ended? && s.flights[exporter].stage.outcome.Exported?
             && c !in s.flights && IsChain(s, chain)
             && var key := s.flights[exporter].stage.outcome.evk;
                if chain == [] then vk == key
                else
                  var first := s.flights[chain[0]].stage.outcome.starter;
                  && first in s.flights && s.flights[first].req.RecoverRound1? && s.flights[first].req.backup == Some(key)
                  && vk == s.flights[chain[|chain| - 1]].stage.outcome.rvk
    ensures var t := Run(Step(Run(INIT, before), Begin(c, SignRound1(sid, commitments, Some(vk), message))), after);
            && c in t.flights && (t.flights[c].stage.Ready? || t.flights[c].stage == Ended(Rejected))
            && forall u :: u in t.hist.info ==> t.hist.info[u].creator != c
  {
    Reachable(before);
    var s := Run(INIT, before);
    assert StageTraced(s, s.flights[exporter]);
    if chain != [] { RotationChain(before, chain); }
    var a := Begin(c, SignRound1(sid, commitments, Some(vk), message));
    forall u | u in s.hist.info ensures s.hist.info[u].creator != c {
      assert InfoTraced(s.flights, s.hist.info[u]);
    }
    InvStep(s, a);
    TracedStep(s, a);
    LockedRun(Step(s, a), after, c, vk);
  }
}

/** The guarantees about protocol tasks and the replay mark over all runs of the DKLs23 engine. */
module TaskTheorems {
  import opened Wrappers
  import opened SessionKeys
  import opened TaskSessions

  lemma Reachable(acts: seq<Action>)
    ensures Inv(Run(INIT, acts))
  {
    InvRun(INIT, acts);
  }

  /** Every stored session holds the handle of a task of its own, not yet joined or aborted. */
  lemma StoredSessionOwnsTask(acts: seq<Action>, k: Key)
    requires k in Run(INIT, acts).store.sessions
    ensures var s := Run(INIT, acts);
            && s.store.sessions[k].task.Some?
            && s.store.sessions[k].task.value !in s.hist.ends
            && forall l :: l in s.store.sessions && l != k ==> s.store.sessions[l].task != s.store.sessions[k].task
  {
    Reachable(acts);
  }

  /** No handle is awaited or aborted twice. */
  lemma EndedOnce(acts: seq<Action>, i: nat, j: nat)
    requires i < j < |Run(INIT, acts).hist.ends|
    ensures Run(INIT, acts).hist.ends[i] != Run(INIT, acts).hist.ends[j]
  {
    Reachable(acts);
  }

  /** A call awaits only a task spawned by a round 1 of its own session. */
  lemma JoinsItsOwnTask(acts: seq<Action>, c: nat)
    requires c in Run(INIT, acts).flights && Run(INIT, acts).flights[c].stage.Joining?
    ensures var s := Run(INIT, acts);
            var t := s.flights[c].stage.join;
            && t in s.hist.info && s.hist.info[t].creator in s.flights
            && s.flights[s.hist.info[t].creator].req == Round1(s.flights[c].req.key)
  {
    Reachable(acts);
    var s := Run(INIT, acts);
    assert FlightOk(s.hist, c, s.flights[c]);
    assert TaskOk(s, s.flights[c].stage.join, s.hist.info[s.flights[c].stage.join]);
  }

  ghost predicate Quiet(s: State) {
    forall c :: c in s.flights ==> s.flights[c].stage.Ended?
  }

  /** The mark is set only inside a call, so it is never found set between calls. */
  lemma MarkedOnlyInsideACall(acts: seq<Action>, k: Key)
    requires k in Run(INIT, acts).store.sessions && Run(INIT, acts).store.sessions[k].consumed
    ensures var s := Run(INIT, acts);
            exists c :: c in s.flights && s.flights[c].req.key == k && !s.flights[c].stage.Ended?
  {
    Reachable(acts);
    var s := Run(INIT, acts);
    assert Marker(s, k);
    var c :| c in s.flights && s.flights[c].req.key == k && (s.flights[c].stage.Resetting? || s.flights[c].stage.Removing?);
  }

  lemma QuietSessionsUnmarked(acts: seq<Action>, k: Key)
    requires Quiet(Run(INIT, acts)) && k in Run(INIT, acts).store.sessions
    ensures !Run(INIT, acts).store.sessions[k].consumed
  {
    if Run(INIT, acts).store.sessions[k].consumed { MarkedOnlyInsideACall(acts, k); }
  }

  // ── What the mark does not prevent ──────────────────────────────────

  /** The call has collected on `k` and not yet reset or removed: its round is still under way. */
  predicate Inside(s: State, k: Key, c: nat) {
    c in s.flights && s.flights[c].req.key == k && (s.flights[c].stage.Resetting? || s.flights[c].stage.Removing?)
  }

  ghost predicate TwoInside(s: State, k: Key) {
    exists c, d :: c != d && Inside(s, k, c) && Inside(s, k, d)
  }

  /** A later round passes its lookup exactly if the session is there, neither expired nor marked. */
  lemma LookupPassesIff(acts: seq<Action>, c: nat, a: Answer)
    requires var s := Run(INIT, acts);
             && c in s.flights && s.flights[c].stage.Ready?
             && (s.flights[c].req.Later? || (s.flights[c].req.Collect? && s.flights[c].req.key.op.Sign?))
    ensures var s := Run(INIT, acts);
            var k := s.flights[c].req.key;
            Step(s, Go(c, a)).flights[c].stage.Got? <==>
              && k in s.store.sessions && !(k.op.Sign? && s.store.sessions[k].consumed)
              && !(k.op.Recover? && s.store.clock - s.store.sessions[k].createdAt > SESSION_TTL)
  {
  }

  /** The mark is looked at in the lookup and not again: two rounds of one sign session come to be under way
      at once exactly when a call collects while another is inside. */
  lemma TwoInsideIff(acts: seq<Action>, a: Action, k: Key)
    requires k.op.Sign? && !TwoInside(Run(INIT, acts), k)
    ensures var s := Run(INIT, acts);
            TwoInside(Step(s, a), k) <==> Collects(s, a, k) && exists c :: c != a.gcall && Inside(s, k, c)
  {
    var s := Run(INIT, acts);
    var t := Step(s, a);
    hide Step, Inside;
    forall c ensures Inside(t, k, c) && !Inside(s, k, c) ==> Collects(s, a, k) && a.gcall == c
             ensures Inside(s, k, c) && !(a.Go? && a.gcall == c) ==> Inside(t, k, c)
             ensures Collects(s, a, k) && a.gcall == c ==> Inside(t, k, c)
    {
      EntersInside(s, a, k, c);
    }
    if Collects(s, a, k) {
      if c :| c != a.gcall && Inside(s, k, c) { assert Inside(t, k, c) && Inside(t, k, a.gcall); }
    }
    if TwoInside(t, k) {
      var c, d :| c != d && Inside(t, k, c) && Inside(t, k, d);
      assert Inside(s, k, c) || Inside(s, k, d);
    }
  }

  /** A call that collects on a sign session, which makes it one that is inside. */
  predicate Collects(s: State, a: Action, k: Key) {
    && a.Go? && a.gcall in s.flights && s.flights[a.gcall].req.key == k && s.flights[a.gcall].stage.Got?
    && !a.answer.Fails? && k in s.store.sessions
  }

  lemma OwnStage(s: State, c: nat, a: Answer, k: Key)
    requires k.op.Sign? && c in s.flights && s.flights[c].req.key == k && !Inside(s, k, c)
    ensures Inside(Section(s, c, a), k, c) <==> Collects(s, Go(c, a), k)
  {
  }

  lemma OtherStages(s: State, a: Action, c: nat)
    requires c in s.flights && !(a.Go? && a.gcall == c)
    ensures c in Step(s, a).flights && Step(s, a).flights[c] == s.flights[c]
  {
  }

  lemma NewStages(s: State, a: Action, c: nat, k: Key)
    requires c !in s.flights
    ensures !Inside(Step(s, a), k, c)
  {
  }

  lemma SameKey(s: State, c: nat, a: Answer)
    requires c in s.flights
    ensures c in Section(s, c, a).flights && Section(s, c, a).flights[c].req == s.flights[c].req
  {
  }

  lemma EntersInside(s: State, a: Action, k: Key, c: nat)
    requires k.op.Sign?
    ensures Inside(Step(s, a), k, c) && !Inside(s, k, c) ==> Collects(s, a, k) && a.gcall == c
    ensures Inside(s, k, c) && !(a.Go? && a.gcall == c) ==> Inside(Step(s, a), k, c)
    ensures Collects(s, a, k) && a.gcall == c ==> Inside(Step(s, a), k, c)
  {
    hide Section;
    if c !in s.flights { NewStages(s, a, c, k); }
    else if a.Go? && a.gcall == c {
      SameKey(s, c, a.answer);
      if s.flights[c].req.key == k && !Inside(s, k, c) { OwnStage(s, c, a.answer, k); }
    } else { OtherStages(s, a, c); }
  }

  /** Then the first reset clears the mark while the other call is still inside. */
  lemma ResetClearsTheOthersMark(acts: seq<Action>, c: nat, d: nat, k: Key, a: Answer)
    requires var s := Run(INIT, acts);
             && c != d && Inside(s, k, c) && s.flights[c].stage.Resetting? && Inside(s, k, d) && k in s.store.sessions
    ensures var t := Step(Run(INIT, acts), Go(c, a));
            k in t.store.sessions && !t.store.sessions[k].consumed && Inside(t, k, d)
  {
  }

  /** One such run: both calls pass their lookup before either collects.  Then the first one's reset clears
      the mark while the second is still inside. */
  lemma TwoRoundsInside(sid: string)
    ensures var k := Key(Sign, sid);
            var acts := [Begin(0, Round1(k)), Go(0, Batch), Go(0, Batch), Go(0, Batch),
                         Begin(1, Later(k)), Begin(2, Later(k)),
                         Go(1, Batch), Go(2, Batch), Go(1, Batch), Go(2, Batch)];
            var s := Run(INIT, acts);
            var t := Run(INIT, acts + [Go(1, Batch)]);
            && Inside(s, k, 1) && Inside(s, k, 2) && TwoInside(s, k) && k in s.store.sessions && s.store.sessions[k].consumed
            && Inside(t, k, 2) && k in t.store.sessions && !t.store.sessions[k].consumed
  {
    var k := Key(Sign, sid);
    var acts := [Begin(0, Round1(k)), Go(0, Batch), Go(0, Batch), Go(0, Batch),
                 Begin(1, Later(k)), Begin(2, Later(k)),
                 Go(1, Batch), Go(2, Batch), Go(1, Batch), Go(2, Batch)];
    var s4 := FourSteps(INIT, acts[0], acts[1], acts[2], acts[3]);
    var s8 := FourSteps(s4, acts[4], acts[5], acts[6], acts[7]);
    var s10 := Step(Step(s8, acts[8]), acts[9]);
    OneStarts(k);
    BothLookUp(s4, k);
    BothCollect(s8, k);
    hide Step, FourSteps, Inside;
    RunTen(INIT, acts);
    RunOneMore(INIT, acts, Go(1, Batch));
    ResetClearsTheOthersMark(acts, 1, 2, k, Batch);
  }

  function FourSteps(s: State, a: Action, b: Action, c: Action, d: Action): State {
    Step(Step(Step(Step(s, a), b), c), d)
  }

  lemma RunFour(s: State, acts: seq<Action>)
    requires |acts| >= 4
    ensures Run(s, acts) == Run(FourSteps(s, acts[0], acts[1], acts[2], acts[3]), acts[4..])
  {
    hide Step;
    var s1 := Step(s, acts[0]);
    var s2 := Step(s1, acts[1]);
    Steps(s, acts, 0); Steps(s1, acts, 1); Steps(s2, acts, 2); Steps(Step(s2, acts[2]), acts, 3);
  }

  lemma RunTen(s: State, acts: seq<Action>)
    requires |acts| == 10
    ensures Run(s, acts) ==
              var s4 := FourSteps(s, acts[0], acts[1], acts[2], acts[3]);
              var s8 := FourSteps(s4, acts[4], acts[5], acts[6], acts[7]);
              Step(Step(s8, acts[8]), acts[9])
  {
    hide Step, FourSteps;
    var s4 := FourSteps(s, acts[0], acts[1], acts[2], acts[3]);
    var s8 := FourSteps(s4, acts[4], acts[5], acts[6], acts[7]);
    RunFour(s, acts);
    RunFour(s4, acts[4..]);
    var rest := acts[4..][4..];
    Steps(s8, rest, 0);
    Steps(Step(s8, rest[0]), rest, 1);
    assert rest[2..] == [];
  }

  lemma OneStarts(k: Key)
    ensures var s := FourSteps(INIT, Begin(0, Round1(k)), Go(0, Batch), Go(0, Batch), Go(0, Batch));
            s.flights.Keys == {0} && k in s.store.sessions && !s.store.sessions[k].consumed
  {
  }

  lemma BothLookUp(s: State, k: Key)
    requires k.op.Sign? && s.flights.Keys == {0} && k in s.store.sessions && !s.store.sessions[k].consumed
    ensures var t := FourSteps(s, Begin(1, Later(k)), Begin(2, Later(k)), Go(1, Batch), Go(2, Batch));
            && t.flights.Keys == {0, 1, 2} && t.flights[1] == t.flights[2] == Flight(Later(k), Got)
            && k in t.store.sessions
  {
  }

  lemma BothCollect(s: State, k: Key)
    requires k.op.Sign? && s.flights.Keys == {0, 1, 2} && s.flights[1] == s.flights[2] == Flight(Later(k), Got)
    requires k in s.store.sessions
    ensures var t := Step(Step(s, Go(1, Batch)), Go(2, Batch));
            && 1 in t.flights && t.flights[1].stage.Resetting? && Inside(t, k, 1) && Inside(t, k, 2)
            && k in t.store.sessions && t.store.sessions[k].consumed
  {
  }

  lemma {:induction false} RunOneMore(s: State, acts: seq<Action>, a: Action)
    ensures Run(s, acts + [a]) == Step(Run(s, acts), a)
    decreases acts
  {
    if acts == [] {
      assert acts + [a] == [a] && [a][1..] == [];
    } else {
      assert (acts + [a])[1..] == acts[1..] + [a];
      RunOneMore(Step(s, acts[0]), acts[1..], a);
    }
  }

  // ── Where tasks go ──────────────────────────────────────────────────

  /** Each task is, once no call is under way, in its session, awaited or aborted; or its handle was
      dropped, by a second round 1 of its session id or by its own round 1 getting no message. */
  lemma WhereTasksGo(acts: seq<Action>, t: nat)
    requires Quiet(Run(INIT, acts)) && t in Run(INIT, acts).hist.info
    ensures var s := Run(INIT, acts);
            var i := s.hist.info[t];
            || (i.key in s.store.sessions && s.store.sessions[i.key].task == Some(t))
            || t in s.hist.ends
            || i.fate.ClosedEarly?
            || (i.fate.Overwritten? && i.fate.over in s.flights && i.creator in s.flights && i.fate.over != i.creator
                && s.flights[i.fate.over].req == s.flights[i.creator].req == Round1(i.key))
  {
    Reachable(acts);
    var s := Run(INIT, acts);
    assert TaskOk(s, t, s.hist.info[t]);
  }

  predicate Orphaned(s: State, t: nat) {
    t in s.hist.info && s.hist.info[t].fate.Overwritten?
  }

  /** Exactly when an action orphans a task: a round 1 inserts its session while one is stored under the id.
      A restart after the session was removed orphans nothing. */
  lemma OrphansIff(acts: seq<Action>, a: Action)
    ensures var s := Run(INIT, acts);
            (exists t :: Orphaned(Step(s, a), t) && !Orphaned(s, t))
            <==> a.Go? && a.gcall in s.flights && s.flights[a.gcall].stage.Inserting?
                 && s.flights[a.gcall].req.key in s.store.sessions
  {
    Reachable(acts);
    var s := Run(INIT, acts);
    if a.Go? && a.gcall in s.flights && s.flights[a.gcall].stage.Inserting? {
      InsertOrphans(s, a.gcall);
    } else {
      OthersOrphanNone(s, a);
    }
  }

  lemma InsertOrphans(s: State, c: nat)
    requires Inv(s) && c in s.flights && s.flights[c].stage.Inserting?
    ensures var k, t := s.flights[c].req.key, Insert(s, c, s.flights[c].stage.ins);
            if k in s.store.sessions then
              && s.store.sessions[k].task.Some?
              && Orphaned(t, s.store.sessions[k].task.value) && !Orphaned(s, s.store.sessions[k].task.value)
            else forall u :: Orphaned(t, u) ==> Orphaned(s, u)
  {
    assert FlightOk(s.hist, c, s.flights[c]);
  }

  lemma OthersOrphanNone(s: State, a: Action)
    requires !(a.Go? && a.gcall in s.flights && s.flights[a.gcall].stage.Inserting?)
    ensures forall t :: Orphaned(Step(s, a), t) ==> Orphaned(s, t)
  {
  }

  /** So a task is orphaned by a restart only if its session id really was started twice. */
  lemma StartedOnceNeverOverwritten(acts: seq<Action>, t: nat)
    requires t in Run(INIT, acts).hist.info
    requires var s := Run(INIT, acts);
             forall c, d :: c in s.flights && d in s.flights && s.flights[c].req.Round1? && s.flights[c].req == s.flights[d].req ==> c == d
    ensures !Run(INIT, acts).hist.info[t].fate.Overwritten?
  {
    Reachable(acts);
    var s := Run(INIT, acts);
    assert TaskOk(s, t, s.hist.info[t]);
  }

  /** One such run: the first task goes on running with nobody to await or abort it. */
  lemma RestartOrphansTheFirstTask(k: Key)
    ensures var acts := [Begin(0, Round1(k)), Go(0, Batch), Go(0, Batch), Go(0, Batch),
                         Begin(1, Round1(k)), Go(1, Batch), Go(1, Batch), Go(1, Batch)];
            var s := Run(INIT, acts);
            && 0 in s.flights && 1 in s.flights && k in s.store.sessions && 0 in s.hist.info
            && s.flights[0].stage == s.flights[1].stage == Ended(Continued)
            && s.store.sessions[k].task == Some(1) && s.hist.info[0].fate == Overwritten(1) && 0 !in s.hist.ends
  {
    var acts := [Begin(0, Round1(k)), Go(0, Batch), Go(0, Batch), Go(0, Batch),
                 Begin(1, Round1(k)), Go(1, Batch), Go(1, Batch), Go(1, Batch)];
    var s4 := FourSteps(INIT, acts[0], acts[1], acts[2], acts[3]);
    assert s4.store.sessions[k].task == Some(0);
    RunFour(INIT, acts);
    RunFour(s4, acts[4..]);
    assert acts[4..][4..] == [];
  }

  lemma Steps(s: State, acts: seq<Action>, i: nat)
    requires i < |acts|
    ensures Run(s, acts[i..]) == Run(Step(s, acts[i]), acts[i + 1..])
    ensures i == 0 ==> Run(s, acts) == Run(s, acts[0..])
  {
    assert acts[i..][1..] == acts[i + 1..];
    if i == 0 { assert acts[0..] == acts; }
  }
}

/** Sessions stay with the engine that started them. */
module RoutingTheorems {
  import opened Wrappers
  import opened SessionKeys
  import opened Envelope
  import opened Founding
  import opened Routing
  import F = FrostSessions
  import FI = FrostInvariant
  import FT = FrostTrace
  import T = TaskSessions

  /** Both engines are in order, and have begun exactly the calls that were sent to them. */
  ghost predicate EnginesOk(s: State) {
    FI.Inv(s.frost) && FT.Traced(s.frost) && T.Inv(s.dkls) && FrostFounded(s.frost) && TaskFounded(s.dkls)
  }

  ghost predicate CallsOk(s: State) {
    && (forall c :: c in s.frost.flights ==>
          c in s.calls && s.calls[c].at == Sent(Frost) && FrostRequest(s.calls[c].call) == Some(s.frost.flights[c].req))
    && (forall c :: c in s.dkls.flights ==>
          c in s.calls && s.calls[c].at == Sent(Dkls) && TaskRequest(s.calls[c].call) == s.dkls.flights[c].req)
  }

  lemma EnginesStep(s: State, a: Action)
    requires EnginesOk(s)
    ensures EnginesOk(Step(s, a))
  {
    var p, q := FrostPart(s, a), TaskPart(s, a);
    StepParts(s, a);
    if p.Some? {
      FI.InvStep(s.frost, p.value);
      FT.TracedStep(s.frost, p.value);
      FrostFoundedStep(s.frost, p.value);
    }
    if q.Some? {
      T.InvStep(s.dkls, q.value);
      TaskFoundedStep(s.dkls, q.value);
    }
  }

  lemma FrostCallsStep(s: State, a: Action)
    requires FI.Inv(s.frost) && CallsOk(s)
    ensures forall c :: c in Step(s, a).frost.flights ==>
              var t := Step(s, a);
              c in t.calls && t.calls[c].at == Sent(Frost) && FrostRequest(t.calls[c].call) == Some(t.frost.flights[c].req)
  {
    var t := Step(s, a);
    var p := FrostPart(s, a);
    StepParts(s, a);
    if p.Some? { FT.StepLater(s.frost, p.value); }
    hide F.Step;
    forall c | c in t.frost.flights
      ensures c in t.calls && t.calls[c].at == Sent(Frost) && FrostRequest(t.calls[c].call) == Some(t.frost.flights[c].req)
    {
      if c !in s.frost.flights { FrostNoNewCalls(s.frost, p.value, c); }
    }
  }

  lemma TaskCallsStep(s: State, a: Action)
    requires CallsOk(s)
    ensures forall c :: c in Step(s, a).dkls.flights ==>
              var t := Step(s, a);
              c in t.calls && t.calls[c].at == Sent(Dkls) && TaskRequest(t.calls[c].call) == t.dkls.flights[c].req
  {
    var t := Step(s, a);
    var p := TaskPart(s, a);
    StepParts(s, a);
    hide T.Step;
    forall c | c in t.dkls.flights
      ensures c in t.calls && t.calls[c].at == Sent(Dkls) && TaskRequest(t.calls[c].call) == t.dkls.flights[c].req
    {
      if c !in s.dkls.flights { TaskNoNewCalls(s.dkls, p.value, c); }
      else if p.Some? { TaskOthersStay(s.dkls, p.value, c); }
    }
  }

  lemma {:induction false} InvRun(s: State, acts: seq<Action>)
    requires EnginesOk(s) && CallsOk(s)
    ensures EnginesOk(Run(s, acts)) && CallsOk(Run(s, acts))
    decreases acts
  {
    if acts != [] {
      EnginesStep(s, acts[0]);
      FrostCallsStep(s, acts[0]);
      TaskCallsStep(s, acts[0]);
      InvRun(Step(s, acts[0]), acts[1..]);
    }
  }

  // ── The theorems ────────────────────────────────────────────────────

  predicate IsStart(e: Entry, op: Op, sid: string) {
    e.call.round == 1 && e.call.op == op && e.call.sid == sid
  }

  predicate SameStart(e: Entry, f: Entry) {
    f.call.round == 1 && IsStart(e, f.call.op, f.call.sid)
  }

  /** No session id is started a second time. */
  ghost predicate StartedOnce(s: State) {
    forall c, d :: c in s.calls && d in s.calls && SameStart(s.calls[c], s.calls[d]) ==> c == d
  }

  /** A call got past the lookup of its session. */
  predicate Advanced(s: State, c: nat) {
    || (c in s.frost.flights && FrostAdvanced(s.frost.flights[c].stage))
    || (c in s.dkls.flights && TaskAdvanced(s.dkls.flights[c].stage))
  }

  lemma FrostStarter(s: State, call: Call) returns (c: nat)
    requires CallsOk(s) && FrostStarted(s.frost, KeyOf(call))
    ensures c in s.calls && s.calls[c].at == Sent(Frost) && IsStart(s.calls[c], call.op, call.sid)
  {
    c :| c in s.frost.flights && FT.IsRound1(s.frost.flights[c].req) && F.KeyOf(s.frost.flights[c].req) == Some(KeyOf(call));
  }

  lemma TaskStarter(s: State, call: Call) returns (c: nat)
    requires CallsOk(s) && TaskStarted(s.dkls, KeyOf(call))
    ensures c in s.calls && s.calls[c].at == Sent(Dkls) && IsStart(s.calls[c], call.op, call.sid)
  {
    c :| c in s.dkls.flights && s.dkls.flights[c].req == T.Round1(KeyOf(call));
  }

  lemma StarterOf(s: State, c: nat) returns (d: nat)
    requires CallsOk(s) && FrostFounded(s.frost) && TaskFounded(s.dkls) && c in s.calls && Advanced(s, c)
    ensures d in s.calls && s.calls[d].at == s.calls[c].at && IsStart(s.calls[d], s.calls[c].call.op, s.calls[c].call.sid)
  {
    var call := s.calls[c].call;
    if c in s.frost.flights {
      assert F.KeyOf(s.frost.flights[c].req) == Some(KeyOf(call));
      d := FrostStarter(s, call);
    } else {
      assert s.dkls.flights[c].req.key == KeyOf(call);
      d := TaskStarter(s, call);
    }
  }

  /** A call that advances a session does so in the engine that some round 1 of it was sent to. */
  lemma AdvancesWhereStarted(acts: seq<Action>, c: nat)
    requires c in Run(INIT, acts).calls && Advanced(Run(INIT, acts), c)
    ensures var s := Run(INIT, acts);
            exists d :: d in s.calls && s.calls[d].at == s.calls[c].at
                        && IsStart(s.calls[d], s.calls[c].call.op, s.calls[c].call.sid)
  {
    InvRun(INIT, acts);
    hide FI.Inv, T.Inv, FT.Traced, CallsOk, FrostFounded, TaskFounded, Advanced;
    var d := StarterOf(Run(INIT, acts), c);
  }

  /** With every id started once, every call on a session is handled by the engine that ran its round 1,
      or gets nowhere: the other engine never advances it. */
  lemma HandledByItsEngine(acts: seq<Action>, start: nat, c: nat)
    requires StartedOnce(Run(INIT, acts))
    requires var s := Run(INIT, acts);
             && start in s.calls && c in s.calls && Advanced(s, c)
             && IsStart(s.calls[start], s.calls[c].call.op, s.calls[c].call.sid)
    ensures Run(INIT, acts).calls[c].at == Run(INIT, acts).calls[start].at
  {
    AdvancesWhereStarted(acts, c);
  }

  lemma OneStart(s: State, c: nat, d: nat, call: Call)
    requires StartedOnce(s) && c in s.calls && d in s.calls
    requires IsStart(s.calls[c], call.op, call.sid) && IsStart(s.calls[d], call.op, call.sid)
    ensures c == d
  {
    assert SameStart(s.calls[c], s.calls[d]);
  }

  /** With every id started once, no session is in both engines' maps. */
  lemma MapsDisjoint(acts: seq<Action>, call: Call)
    requires StartedOnce(Run(INIT, acts))
    ensures var s := Run(INIT, acts);
            !(KeyOf(call) in s.frost.store.sessions && KeyOf(call) in s.dkls.store.sessions)
  {
    InvRun(INIT, acts);
    var s := Run(INIT, acts);
    if KeyOf(call) in s.frost.store.sessions && KeyOf(call) in s.dkls.store.sessions {
      FrostSessionStarted(s.frost, KeyOf(call));
      TaskSessionStarted(s.dkls, KeyOf(call));
      hide FI.Inv, T.Inv, FT.Traced, FrostStarted, TaskStarted;
      var c := FrostStarter(s, call);
      var d := TaskStarter(s, call);
      hide CallsOk;
      OneStart(s, c, d, call);
    }
  }

  // ── What a restart does ─────────────────────────────────────────────

  predicate InBoth(s: State, k: Key) {
    k in s.frost.store.sessions && k in s.dkls.store.sessions
  }

  /** The step inserts a session under `k` into the FROST map, or into the DKLs23 map. */
  predicate InsertsFrost(s: State, a: Action, k: Key) {
    && a.FrostGo? && a.fid in s.frost.flights && s.frost.flights[a.fid].stage.Inserting? && s.frost.flights[a.fid].stage.k == k
  }

  predicate InsertsDkls(s: State, a: Action, k: Key) {
    && a.DklsGo? && a.tid in s.dkls.flights && s.dkls.flights[a.tid].stage.Inserting? && s.dkls.flights[a.tid].req.key == k
  }

  lemma FrostInsertIff(s: F.State, a: F.Action, k: Key)
    requires k !in s.store.sessions
    ensures k in F.Step(s, a).store.sessions <==>
              a.Go? && a.gcall in s.flights && s.flights[a.gcall].stage.Inserting? && s.flights[a.gcall].stage.k == k
  {
    if a.Go? && a.gcall in s.flights && s.flights[a.gcall].stage.Holding? {
      FI.LibraryCases(s, a.gcall, s.flights[a.gcall].stage.hk, s.flights[a.gcall].stage.h, a.answer);
    }
  }

  lemma TaskInsertIff(s: T.State, a: T.Action, k: Key)
    requires k !in s.store.sessions
    ensures k in T.Step(s, a).store.sessions <==>
              a.Go? && a.gcall in s.flights && s.flights[a.gcall].stage.Inserting? && s.flights[a.gcall].req.key == k
  {
  }

  /** Exactly when a session comes to be in both maps: one engine inserts it while the other holds it. */
  lemma InBothIff(acts: seq<Action>, a: Action, k: Key)
    requires !InBoth(Run(INIT, acts), k)
    ensures var s := Run(INIT, acts);
            InBoth(Step(s, a), k) <==>
              || (InsertsFrost(s, a, k) && k in s.dkls.store.sessions)
              || (InsertsDkls(s, a, k) && k in s.frost.store.sessions)
  {
    var s := Run(INIT, acts);
    var p, q := FrostPart(s, a), TaskPart(s, a);
    StepParts(s, a);
    if p.Some? && k !in s.frost.store.sessions { FrostInsertIff(s.frost, p.value, k); }
    if q.Some? && k !in s.dkls.store.sessions { TaskInsertIff(s.dkls, q.value, k); }
    hide F.Step, T.Step;
  }

  /** An id started first on one curve and then on the other is in both maps at once, and from then
      on every later round of it is sent to FROST. */
  lemma RestartMixesEngines(sid: string, args: Args)
    requires args.payload.Some?
    ensures var first, second := Call(Keygen, sid, 1, Secp256k1, args), Call(Keygen, sid, 1, Ed25519, args);
            var s := Run(INIT, [Arrive(0, first), Dispatch(0), DklsGo(0, T.Batch), DklsGo(0, T.Batch), DklsGo(0, T.Batch),
                                Arrive(1, second), Dispatch(1), FrostGo(1, F.Granted([])), FrostGo(1, F.Granted([]))]);
            && KeyOf(first) in s.frost.store.sessions && KeyOf(first) in s.dkls.store.sessions
            && Route(s, first.(round := 2)).Frost?
  {
    var first, second := Call(Keygen, sid, 1, Secp256k1, args), Call(Keygen, sid, 1, Ed25519, args);
    var acts := [Arrive(0, first), Dispatch(0), DklsGo(0, T.Batch), DklsGo(0, T.Batch), DklsGo(0, T.Batch),
                 Arrive(1, second), Dispatch(1), FrostGo(1, F.Granted([])), FrostGo(1, F.Granted([]))];
    var s2 := Step(Step(INIT, acts[0]), acts[1]);
    assert s2.dkls.flights[0] == T.Flight(T.Round1(KeyOf(first)), T.Ready);
    var s5 := Step(Step(Step(s2, acts[2]), acts[3]), acts[4]);
    assert KeyOf(first) in s5.dkls.store.sessions;
    var s7 := Step(Step(s5, acts[5]), acts[6]);
    assert s7.frost.flights[1] == F.Flight(F.KeygenRound1(sid, args.payload), F.Ready) && s7.dkls == s5.dkls;
    var s9 := Step(Step(s7, acts[7]), acts[8]);
    assert KeyOf(first) in s9.frost.store.sessions && s9.dkls == s5.dkls;
    NineSteps(acts);
  }

  lemma NineSteps(acts: seq<Action>)
    requires |acts| == 9
    ensures Run(INIT, acts) ==
      Step(Step(Step(Step(Step(Step(Step(Step(Step(INIT, acts[0]), acts[1]), acts[2]), acts[3]), acts[4]), acts[5]),
          acts[6]), acts[7]), acts[8])
  {
    hide Step;
    assert acts[0..] == acts && acts[9..] == [];
    assert acts[1..][1..] == acts[2..] && acts[2..][1..] == acts[3..] && acts[3..][1..] == acts[4..] && acts[4..][1..] == acts[5..];
    assert acts[5..][1..] == acts[6..] && acts[6..][1..] == acts[7..] && acts[7..][1..] == acts[8..] && acts[8..][1..] == acts[9..];
    var s2 := Step(Step(INIT, acts[0]), acts[1]);
    assert Run(INIT, acts) == Run(s2, acts[2..]);
    var s4 := Step(Step(s2, acts[2]), acts[3]);
    assert Run(s2, acts[2..]) == Run(s4, acts[4..]);
    var s6 := Step(Step(s4, acts[4]), acts[5]);
    assert Run(s4, acts[4..]) == Run(s6, acts[6..]);
    var s8 := Step(Step(s6, acts[6]), acts[7]);
    assert Run(s6, acts[6..]) == Run(s8, acts[8..]);
    assert Run(s8, acts[8..]) == Run(Step(s8, acts[8]), acts[9..]);
  }
}

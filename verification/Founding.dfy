/** In either engine a call gets past the lookup of its session only if some round 1 of that session
    was begun in the same engine. */
module Founding {
  import opened Wrappers
  import opened SessionKeys
  import F = FrostSessions
  import FI = FrostInvariant
  import FT = FrostTrace
  import T = TaskSessions

  // ── FROST ───────────────────────────────────────────────────────────

  ghost predicate FrostStarted(s: F.State, k: Key) {
    exists c :: c in s.flights && FT.IsRound1(s.flights[c].req) && F.KeyOf(s.flights[c].req) == Some(k)
  }

  predicate FrostAdvanced(st: F.Stage) {
    !st.Ready? && st != F.Ended(F.Rejected)
  }

  ghost predicate FrostFounded(s: F.State) {
    forall c :: c in s.flights && F.KeyOf(s.flights[c].req).Some? && FrostAdvanced(s.flights[c].stage) ==>
      FrostStarted(s, F.KeyOf(s.flights[c].req).value)
  }

  lemma FrostSessionStarted(s: F.State, k: Key)
    requires FI.Inv(s) && FT.Traced(s) && k in s.store.sessions
    ensures FrostStarted(s, k)
  {
    assert FI.Holds(s.hist, k, s.store.sessions[k], F.InMap(k));
    var i := s.hist.info[F.SecretOf(s.store.sessions[k])];
    assert FT.InfoTraced(s.flights, i);
    assert i.origin.starter in s.flights;
  }

  lemma FrostStartedLater(s: F.State, t: F.State, k: Key)
    requires FrostStarted(s, k) && FT.Later(s, t)
    ensures FrostStarted(t, k)
  {
    var c :| c in s.flights && FT.IsRound1(s.flights[c].req) && F.KeyOf(s.flights[c].req) == Some(k);
    assert t.flights[c].req == s.flights[c].req;
  }

  lemma FrostStartFounded(s: F.State, c: nat, a: F.Answer)
    requires FI.Inv(s) && FT.Traced(s) && c in s.flights && F.KeyOf(s.flights[c].req).Some?
    requires FrostAdvanced(F.Start(s, c, a).flights[c].stage)
    ensures FrostStarted(s, F.KeyOf(s.flights[c].req).value)
  {
    var k := F.KeyOf(s.flights[c].req).value;
    if !FT.IsRound1(s.flights[c].req) { FrostSessionStarted(s, k); }
  }

  lemma FrostNoNewCalls(s: F.State, a: F.Action, c: nat)
    requires FI.Inv(s) && c !in s.flights && c in F.Step(s, a).flights
    ensures a.Begin? && a.call == c && F.Step(s, a).flights[c] == F.Flight(a.req, F.Ready)
  {
    if a.Go? && a.gcall in s.flights && s.flights[a.gcall].stage.Holding? {
      FI.LibraryCases(s, a.gcall, s.flights[a.gcall].stage.hk, s.flights[a.gcall].stage.h, a.answer);
    }
  }

  lemma FrostFoundedStep(s: F.State, a: F.Action)
    requires FI.Inv(s) && FT.Traced(s) && FrostFounded(s)
    ensures FrostFounded(F.Step(s, a))
  {
    var t := F.Step(s, a);
    FT.StepLater(s, a);
    forall c | c in t.flights && F.KeyOf(t.flights[c].req).Some? && FrostAdvanced(t.flights[c].stage)
      ensures FrostStarted(t, F.KeyOf(t.flights[c].req).value)
    {
      hide F.Start, F.AfterCheck, F.Library, F.Insert, FI.Inv;
      var k := F.KeyOf(t.flights[c].req).value;
      if c !in s.flights {
        FrostNoNewCalls(s, a, c);
      } else {
        if a.Go? && a.gcall == c {
          if s.flights[c].stage.Ready? { FrostStartFounded(s, c, a.answer); }
        } else {
          FT.OthersStay(s, a, c);
        }
        FrostStartedLater(s, t, k);
      }
    }
  }

  // ── DKLs23 ──────────────────────────────────────────────────────────

  ghost predicate TaskStarted(s: T.State, k: Key) {
    exists c :: c in s.flights && s.flights[c].req == T.Round1(k)
  }

  predicate TaskAdvanced(st: T.Stage) {
    !st.Ready? && st != T.Ended(T.Rejected)
  }

  ghost predicate TaskFounded(s: T.State) {
    forall c :: c in s.flights && TaskAdvanced(s.flights[c].stage) ==> TaskStarted(s, s.flights[c].req.key)
  }

  lemma TaskSessionStarted(s: T.State, k: Key)
    requires T.Inv(s) && k in s.store.sessions
    ensures TaskStarted(s, k)
  {
    var t := s.store.sessions[k].task.value;
    assert T.TaskOk(s, t, s.hist.info[t]);
    assert s.hist.info[t].creator in s.flights;
  }

  /** A step changes the stage of its own call only, and no request. */
  lemma TaskOthersStay(s: T.State, a: T.Action, c: nat)
    requires c in s.flights
    ensures c in T.Step(s, a).flights && T.Step(s, a).flights[c].req == s.flights[c].req
    ensures !(a.Go? && a.gcall == c) ==> T.Step(s, a).flights[c] == s.flights[c]
  {
  }

  lemma TaskNoNewCalls(s: T.State, a: T.Action, c: nat)
    requires c !in s.flights && c in T.Step(s, a).flights
    ensures a.Begin? && a.call == c && T.Step(s, a).flights[c] == T.Flight(a.req, T.Ready)
  {
  }

  lemma TaskStartFounded(s: T.State, c: nat, a: T.Answer)
    requires T.Inv(s) && c in s.flights && s.flights[c].stage.Ready?
    requires TaskAdvanced(T.Start(s, c, a).flights[c].stage)
    ensures TaskStarted(s, s.flights[c].req.key)
  {
    if !s.flights[c].req.Round1? { TaskSessionStarted(s, s.flights[c].req.key); }
  }

  lemma TaskFoundedStep(s: T.State, a: T.Action)
    requires T.Inv(s) && TaskFounded(s)
    ensures TaskFounded(T.Step(s, a))
  {
    var t := T.Step(s, a);
    forall c | c in t.flights && TaskAdvanced(t.flights[c].stage)
      ensures TaskStarted(t, t.flights[c].req.key)
    {
      if c in s.flights {
        TaskOthersStay(s, a, c);
        if a.Go? && a.gcall == c && s.flights[c].stage.Ready? { TaskStartFounded(s, c, a.answer); }
        var d :| d in s.flights && s.flights[d].req == T.Round1(s.flights[c].req.key);
        TaskOthersStay(s, a, d);
      } else {
        TaskNoNewCalls(s, a, c);
      }
    }
  }
}

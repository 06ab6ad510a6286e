/** The secp256k1 half of `keygen`, `recover` and `sign`, updating the session maps in place.  Each
    lock section is a method; each call is proved to be a run of the sections of `TaskSessions`. */
module TaskEngine {
  import opened Wrappers
  import opened SessionKeys
  import opened TaskSessions

  /** A call with nothing in between; no call has more than five sections. */
  function Trace(c: nat, r: Request, outside: nat -> Answer): seq<Action> {
    [Begin(c, r), Go(c, outside(0)), Go(c, outside(1)), Go(c, outside(2)), Go(c, outside(3)), Go(c, outside(4))]
  }

  lemma TraceRuns(s: State, c: nat, r: Request, outside: nat -> Answer)
    ensures Run(s, Trace(c, r, outside)) ==
            Section(Section(Section(Section(Section(Step(s, Begin(c, r)), c, outside(0)), c, outside(1)), c,
                outside(2)), c, outside(3)), c, outside(4))
  {
    var acts := Trace(c, r, outside);
    var g0, g1, g2, g3, g4 := Go(c, outside(0)), Go(c, outside(1)), Go(c, outside(2)), Go(c, outside(3)), Go(c, outside(4));
    assert acts[1..] == [g0, g1, g2, g3, g4] && [g0, g1, g2, g3, g4][1..] == [g1, g2, g3, g4];
    assert [g1, g2, g3, g4][1..] == [g2, g3, g4] && [g2, g3, g4][1..] == [g3, g4] && [g3, g4][1..] == [g4] && [g4][1..] == [];
    var s0 := Step(s, Begin(c, r));
    var s1 := Section(s0, c, outside(0));
    var s2 := Section(s1, c, outside(1));
    var s3 := Section(s2, c, outside(2));
    assert Run(s0, acts[1..]) == Run(s1, [g1, g2, g3, g4]);
    assert Run(s1, [g1, g2, g3, g4]) == Run(s2, [g2, g3, g4]);
    assert Run(s2, [g2, g3, g4]) == Run(s3, [g3, g4]);
    assert Run(s3, [g3, g4]) == Run(Section(s3, c, outside(3)), [g4]);
  }

  lemma EndedStays(s: State, c: nat, a: Answer)
    requires c in s.flights && s.flights[c].stage.Ended?
    ensures Section(s, c, a) == s
  {
  }

  /** Once ended, further sections change nothing. */
  lemma EndedForGood(s: State, c: nat, outside: nat -> Answer)
    requires c in s.flights && s.flights[c].stage.Ended?
    ensures forall i: nat {:trigger outside(i)} :: Section(s, c, outside(i)) == s
  {
    forall i: nat ensures Section(s, c, outside(i)) == s { EndedStays(s, c, outside(i)); }
  }

  class Sessions {
    var sessions: map<Key, Session>
    var clock: nat
    var nextTask: nat               // identity of the next protocol task
    ghost var flights: map<nat, Flight>
    ghost var info: map<nat, Info>
    ghost var ends: seq<nat>

    ghost function View(): State
      reads this
    {
      State(Store(sessions, clock), flights, History(info, ends, nextTask))
    }

    /** The session is there but too old to go on. */
    predicate Expired(k: Key)
      reads this
    {
      k in sessions && k.op.Recover? && clock - sessions[k].createdAt > SESSION_TTL
    }

    constructor ()
      ensures View() == INIT
    {
      sessions, clock, nextTask := map[], 0, 0;
      flights, info, ends := map[], map[], [];
    }

    ghost method Record(t: State)
      requires t.store == Store(sessions, clock) && t.hist.next == nextTask
      modifies this`flights, this`info, this`ends
      ensures View() == t
    {
      flights, info, ends := t.flights, t.hist.info, t.hist.ends;
    }

    /** A call has begun. */
    ghost function Began(s: State, c: nat, r: Request): (t: State)
      requires c !in s.flights
      ensures t.flights == s.flights[c := Flight(r, Ready)] && t.store == s.store && t.hist == s.hist
    {
      Step(s, Begin(c, r))
    }

    // ── Lock sections ─────────────────────────────────────────────────

    method InsertSession(k: Key, t: nat, ghost c: nat, ghost a: Answer)
      requires c in flights && flights[c] == Flight(Round1(k), Inserting(t))
      modifies this
      ensures View() == Section(old(View()), c, a)
      ensures sessions == old(sessions)[k := Session(Some(t), false, clock)]
      ensures flights == old(flights)[c := Flight(Round1(k), Ended(Continued))] && clock == old(clock)
    {
      ghost var s := View();
      sessions := sessions[k := Session(Some(t), false, clock)];
      assert (s.store.sessions - {k})[k := sessions[k]] == s.store.sessions[k := sessions[k]];
      Record(Section(s, c, a));
    }

    method GetSession(k: Key, ghost c: nat, ghost a: Answer) returns (found: bool)
      requires c in flights && flights[c].stage.Ready? && flights[c].req.key == k
      requires flights[c].req.Later? || (flights[c].req.Collect? && k.op.Sign?)
      modifies this
      ensures View() == Section(old(View()), c, a)
      ensures flights == old(flights)[c := Flight(old(flights)[c].req, if found then Got else Ended(Rejected))]
      ensures found <==> k in old(sessions) && !old(Expired(k)) && !(k.op.Sign? && old(sessions)[k].consumed)
      ensures sessions == if old(Expired(k)) then old(sessions) - {k} else old(sessions)
    {
      ghost var s := View();
      found := false;
      if k in sessions {
        var x := sessions[k];
        if k.op.Recover? && clock - x.createdAt > SESSION_TTL {
          sessions := sessions - {k};
        } else if !(k.op.Sign? && x.consumed) {
          found := true;
        }
      }
      Record(Section(s, c, a));
    }

    method Collect(k: Key, answer: Answer, ghost c: nat)
      requires c in flights && flights[c].stage.Got? && flights[c].req.key == k
      modifies this
      ensures View() == Section(old(View()), c, answer)
      ensures sessions == if k in old(sessions) && k.op.Sign? && !answer.Fails?
          then old(sessions)[k := old(sessions)[k].(consumed := true)]
                          else old(sessions)
      ensures flights == old(flights)[c := Flight(old(flights)[c].req,
        if answer.Fails? || k !in old(sessions) then Ended(Rejected) else if answer.Closed? then Removing
            else if k.op.Sign? then Resetting else Ended(Continued))]
    {
      ghost var s := View();
      if !answer.Fails? && k in sessions {
        if k.op.Sign? { sessions := sessions[k := sessions[k].(consumed := true)]; }
      }
      Record(Section(s, c, answer));
    }

    method ResetMark(k: Key, ghost c: nat, ghost a: Answer)
      requires c in flights && flights[c].stage.Resetting? && flights[c].req.key == k
      modifies this
      ensures View() == Section(old(View()), c, a)
      ensures sessions == if k in old(sessions) then old(sessions)[k := old(sessions)[k].(consumed := false)] else old(sessions)
      ensures flights == old(flights)[c := Flight(old(flights)[c].req, Ended(Continued))]
    {
      ghost var s := View();
      if k in sessions { sessions := sessions[k := sessions[k].(consumed := false)]; }
      Record(Section(s, c, a));
    }

    method RemoveSession(k: Key, ghost c: nat, ghost a: Answer) returns (handle: Option<nat>)
      requires c in flights && flights[c].req.key == k
      requires flights[c].stage.Removing? || (flights[c].stage.Ready? && flights[c].req.Collect? && !k.op.Sign?)
      modifies this
      ensures View() == Section(old(View()), c, a)
      ensures handle == if k in old(sessions) then old(sessions)[k].task else None
      ensures sessions == old(sessions) - {k}
      ensures flights == old(flights)[c := Flight(old(flights)[c].req,
          if handle.Some? then Joining(handle.value, Completed) else Ended(Rejected))]
    {
      ghost var s := View();
      handle := None;
      if k in sessions {
        handle := sessions[k].task;
        sessions := sessions - {k};
      }
      Record(Section(s, c, a));
    }

    /** Move call `c` on through a section outside the locks. */
    ghost method Outside(c: nat, a: Answer)
      requires Section(View(), c, a).store == Store(sessions, clock) && Section(View(), c, a).hist.next == nextTask
      modifies this`flights, this`info, this`ends
      ensures View() == Section(old(View()), c, a)
    {
      Record(Section(View(), c, a));
    }

    /** Wait for the task to finish. */
    method Await(task: nat, answer: Answer, ghost c: nat)
      requires c in flights && flights[c].stage.Joining? && flights[c].stage.join == task
      modifies this`flights, this`info, this`ends
      ensures View() == Section(old(View()), c, answer)
      ensures flights == old(flights)[c := Flight(old(flights)[c].req,
          Ended(if answer.Fails? then Rejected else old(flights)[c].stage.ok))]
    {
      Outside(c, answer);
    }

    // ── Calls ─────────────────────────────────────────────────────────

    /** Round 1.  `outside(0)` is whether all up to the spawn succeeds, `outside(1)` how the first batch
        comes out. */
    method StartRound(k: Key, outside: nat -> Answer, ghost c: nat) returns (o: Outcome)
      requires c !in flights
      modifies this
      ensures View() == Run(old(View()), Trace(c, Round1(k), outside)) && c in flights && flights[c].stage == Ended(o)
      ensures o.Continued? <==> !outside(0).Fails? && outside(1).Batch?
      ensures o.Continued? ==> sessions == old(sessions)[k := Session(Some(old(nextTask)), false, clock)]
      ensures !o.Continued? ==> o.Rejected? && sessions == old(sessions)
    {
      ghost var s := View();
      TraceRuns(s, c, Round1(k), outside);
      o := Rejected;
      Record(Step(s, Begin(c, Round1(k))));
      if outside(0).Fails? {
        Outside(c, outside(0));
      } else {
        var t := nextTask;
        nextTask := nextTask + 1;
        Record(Section(Step(s, Begin(c, Round1(k))), c, outside(0)));
        Outside(c, outside(1));
        if outside(1).Batch? {
          InsertSession(k, t, c, outside(2));
          o := Continued;
        } else if outside(1).Closed? && k.op.Keygen? {
          Await(t, outside(2), c);
        }
      }
      EndedForGood(View(), c, outside);
    }

    /** Round 0 of keygen and recovery. */
    method FinishRound(k: Key, outside: nat -> Answer, ghost c: nat) returns (o: Outcome)
      requires Inv(View()) && c !in flights && !k.op.Sign?
      modifies this
      ensures View() == Run(old(View()), Trace(c, TaskSessions.Request.Collect(k), outside))
      ensures c in flights && flights[c].stage == Ended(o)
      ensures sessions == old(sessions) - {k}
      ensures o.Completed? <==> k in old(sessions) && !outside(1).Fails?
    {
      ghost var s := View();
      ghost var r := TaskSessions.Request.Collect(k);
      TraceRuns(s, c, r, outside);
      HasTask(s, k);
      hide Inv, Section;
      Record(Began(s, c, r));
      var handle := RemoveSession(k, c, outside(0));
      if handle.Some? {
        Await(handle.value, outside(1), c);
        o := if outside(1).Fails? then Rejected else Completed;
      } else {
        o := Rejected;
      }
      EndedForGood(View(), c, outside);
    }

    /** A later round from the collecting on.  `outside(1)` is how injecting and collecting come out. */
    method Proceed(k: Key, outside: nat -> Answer, ghost c: nat) returns (o: Outcome)
      requires c in flights && flights[c].stage.Got? && flights[c].req.key == k
      requires k in sessions && sessions[k].task.Some? && !(k.op.Sign? && sessions[k].consumed)
      modifies this
      ensures View() == Section(Section(Section(old(View()), c, outside(1)), c, outside(2)), c, outside(3))
      ensures c in flights && flights[c].stage == Ended(o)
      ensures if outside(1).Fails? then o.Rejected? && sessions == old(sessions)
              else if outside(1).Batch? then o.Continued? && sessions == old(sessions)
              else sessions == old(sessions) - {k} && o == if outside(3).Fails? then Rejected else Completed
    {
      ghost var before := sessions;
      hide Section;
      o := Rejected;
      Collect(k, outside(1), c);
      if outside(1).Batch? {
        if k.op.Sign? {
          ResetMark(k, c, outside(2));
          assert sessions == before;
        }
        o := Continued;
      } else if outside(1).Closed? {
        var handle := RemoveSession(k, c, outside(2));
        Await(handle.value, outside(3), c);
        o := if outside(3).Fails? then Rejected else Completed;
      }
      if !outside(1).Closed? { EndedForGood(View(), c, outside); }
    }

    method NextRound(k: Key, r: Request, outside: nat -> Answer, ghost c: nat) returns (o: Outcome)
      requires Inv(View()) && c !in flights && (r == Later(k) || (r == TaskSessions.Request.Collect(k) && k.op.Sign?))
      modifies this
      ensures View() == Run(old(View()), Trace(c, r, outside)) && c in flights && flights[c].stage == Ended(o)
      ensures if k !in old(sessions) || (k.op.Sign? && old(sessions)[k].consumed) then o.Rejected? && sessions == old(sessions)
              else if old(Expired(k)) then o.Rejected? && sessions == old(sessions) - {k}
              else if outside(1).Fails? then o.Rejected? && sessions == old(sessions)
              else if outside(1).Batch? then o.Continued? && sessions == old(sessions)
              else sessions == old(sessions) - {k} && o == if outside(3).Fails? then Rejected else Completed
    {
      ghost var s := View();
      TraceRuns(s, c, r, outside);
      HasTask(s, k);
      hide Inv, Section;
      Record(Began(s, c, r));
      var found := GetSession(k, c, outside(0));
      if found {
        o := Proceed(k, outside, c);
      } else {
        o := Rejected;
      }
      EndedForGood(View(), c, outside);
    }
  }

  lemma HasTask(s: State, k: Key)
    requires Inv(s)
    ensures k in s.store.sessions ==> s.store.sessions[k].task.Some?
  {
  }
}

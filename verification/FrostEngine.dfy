/** A FROST call that no other call interferes with: what its sections do together. */
module FrostEngine {
  import opened Wrappers
  import opened SessionKeys
  import opened FrostSessions
  import opened FrostInvariant

  /** The calls into the cryptographic libraries. */
  datatype LibCall =
    | Part1(id: nat)
    | Part2(lib: LibState, input: Bytes)
    | Part3(lib3: LibState, input3: Bytes)
    | SignAndAggregate(nonces: nat, package: Bytes)
    | Reconstruct(key: Bytes)

  /** A call from beginning to end with nothing in between; no call has more than four sections. */
  function Whole(s: State, c: nat, r: Request, a: Answer): State {
    Section(Section(Section(Section(Step(s, Begin(c, r)), c, a), c, a), c, a), c, a)
  }

  /** The same as a sequence of actions. */
  function Trace(c: nat, r: Request, a: Answer): seq<Action> {
    [Begin(c, r), Go(c, a), Go(c, a), Go(c, a), Go(c, a)]
  }

  function After(s: State, c: nat, r: Request, a: Answer): State {
    Run(s, Trace(c, r, a))
  }

  lemma WholeIsRun(s: State, c: nat, r: Request, a: Answer)
    ensures After(s, c, r, a) == Whole(s, c, r, a)
  {
    var g := Go(c, a);
    var s1 := Step(s, Begin(c, r));
    assert [Begin(c, r), g, g, g, g][1..] == [g, g, g, g];
    assert [g, g, g, g][1..] == [g, g, g] && [g, g, g][1..] == [g, g] && [g, g][1..] == [g] && [g][1..] == [];
    assert Run(s1, [g, g, g, g]) == Run(Section(s1, c, a), [g, g, g]);
    var s2 := Section(s1, c, a);
    assert Run(s2, [g, g, g]) == Run(Section(s2, c, a), [g, g]);
    var s3 := Section(s2, c, a);
    assert Run(s3, [g, g]) == Run(Section(s3, c, a), [g]);
    var s4 := Section(s3, c, a);
    assert Run(s4, [g]) == Run(Section(s4, c, a), []);
  }

  /** What a whole call leaves for the next one to see. */
  predicate Leaves(t: State, c: nat, st: Store, next: nat, o: Outcome) {
    t.store == st && t.hist.next == next && c in t.flights && t.flights[c].stage == Ended(o)
  }

  lemma EndedStays(s: State, c: nat, a: Answer)
    requires c in s.flights && s.flights[c].stage.Ended?
    ensures Section(s, c, a) == s
  {
  }

  lemma Inserted(s: State, c: nat, a: Answer)
    requires c in s.flights && s.flights[c].stage.Inserting?
    ensures var st := s.flights[c].stage;
            Leaves(Section(s, c, a), c, s.store.(sessions := s.store.sessions[st.k := st.x]), s.hist.next, Continued)
  {
    var st := s.flights[c].stage;
    assert (s.store.sessions - {st.k})[st.k := st.x] == s.store.sessions[st.k := st.x];
  }

  /** Store a session under a key, or take one away. */
  function With(st: Store, k: Key, x: Session): Store { st.(sessions := st.sessions[k := x]) }
  function Without(st: Store, k: Key): Store { st.(sessions := st.sessions - {k}) }

  // ── Whole calls, one by one ─────────────────────────────────────────

  lemma WholeKeygenRound1(s: State, c: nat, sid: string, payload: Option<Bytes>, a: Answer)
    requires c !in s.flights
    ensures var t := After(s, c, KeygenRound1(sid, payload), a);
            if payload.None? || a.Refused? then Leaves(t, c, s.store, s.hist.next, Rejected)
            else Leaves(t, c, With(s.store, Key(Keygen, sid), KeygenSession(LibState(s.hist.next, 1), payload.value)),
                        s.hist.next + 1, Continued)
  {
    WholeIsRun(s, c, KeygenRound1(sid, payload), a);
    var s2 := Section(Step(s, Begin(c, KeygenRound1(sid, payload))), c, a);
    if s2.flights[c].stage.Ended? { EndedStays(s2, c, a); }
    else {
      Inserted(s2, c, a);
      EndedStays(Section(s2, c, a), c, a);
    }
  }

  lemma WholeKeygenRound2(s: State, c: nat, sid: string, payload: Option<Bytes>, a: Answer)
    requires Inv(s) && c !in s.flights
    ensures var t, k := After(s, c, KeygenRound2(sid, payload), a), Key(Keygen, sid);
            if payload.None? || k !in s.store.sessions then Leaves(t, c, s.store, s.hist.next, Rejected)
            else
              && s.store.sessions[k].KeygenSession?
              && if a.Refused? then Leaves(t, c, Without(s.store, k), s.hist.next, Rejected)
                 else Leaves(t, c, With(s.store, k, Renewed(s.store.sessions[k], s.hist.next, payload.value)),
                     s.hist.next + 1, Continued)
  {
    WholeIsRun(s, c, KeygenRound2(sid, payload), a);
    var k := Key(Keygen, sid);
    var s2 := Section(Step(s, Begin(c, KeygenRound2(sid, payload))), c, a);
    if s2.flights[c].stage.Ended? { EndedStays(s2, c, a); }
    else {
      var x := s.store.sessions[k];
      assert Holds(s.hist, k, x, InMap(k));
      HeldRenewed(s2, c, k, x, a);
      EndedStays(Section(Section(s2, c, a), c, a), c, a);
      PutBack(s.store, k, Renewed(x, s.hist.next, payload.value));
    }
  }

  lemma PutBack(st: Store, k: Key, x: Session)
    ensures With(Without(st, k), k, x) == With(st, k, x)
  {
    assert (st.sessions - {k})[k := x] == st.sessions[k := x];
  }

  /** The library section of a second round, and what follows it. */
  lemma HeldRenewed(s: State, c: nat, k: Key, x: Session, a: Answer)
    requires c in s.flights && s.flights[c].stage == Holding(k, x)
    requires (s.flights[c].req.KeygenRound2? && s.flights[c].req.payload.Some? && x.KeygenSession?)
          || (s.flights[c].req.RecoverRound2? && s.flights[c].req.payload.Some? && x.RecoverySession?)
    ensures var t := Section(Section(Section(s, c, a), c, a), c, a);
            && t == Section(Section(s, c, a), c, a)
            && if a.Refused? then Leaves(t, c, s.store, s.hist.next, Rejected)
               else Leaves(t, c, With(s.store, k, Renewed(x, s.hist.next, s.flights[c].req.payload.value)),
                   s.hist.next + 1, Continued)
  {
    var s1 := Section(s, c, a);
    if a.Refused? { EndedStays(s1, c, a); }
    else {
      Inserted(s1, c, a);
      EndedStays(Section(s1, c, a), c, a);
    }
  }

  function Renewed(x: Session, id: nat, payload: Bytes): Session
    requires x.KeygenSession? || x.RecoverySession?
  {
    if x.KeygenSession? then KeygenSession(LibState(id, x.lib.parts + 1), payload)
    else RecoverySession(LibState(id, x.rlib.parts + 1), payload, x.version, x.createdAt, x.vk)
  }

  /** A call whose second section ends it. */
  lemma TwoSections(s: State, c: nat, r: Request, a: Answer)
    requires c !in s.flights
    requires var s2 := Section(Step(s, Begin(c, r)), c, a);
             s2.flights[c].stage.Ended? || Section(s2, c, a).flights[c].stage.Ended?
    ensures var s2 := Section(Step(s, Begin(c, r)), c, a);
            Whole(s, c, r, a) == if s2.flights[c].stage.Ended? then s2 else Section(s2, c, a)
  {
    var s2 := Section(Step(s, Begin(c, r)), c, a);
    if s2.flights[c].stage.Ended? { EndedStays(s2, c, a); } else { EndedStays(Section(s2, c, a), c, a); }
  }

  lemma WholeKeygenFinalize(s: State, c: nat, sid: string, a: Answer)
    requires Inv(s) && c !in s.flights
    ensures var t, k := After(s, c, KeygenFinalize(sid), a), Key(Keygen, sid);
            if k !in s.store.sessions then Leaves(t, c, s.store, s.hist.next, Rejected)
            else
              && s.store.sessions[k].KeygenSession?
              && Leaves(t, c, Without(s.store, k), s.hist.next, if a.Refused? then Rejected else KeyReady(a.key))
  {
    WholeIsRun(s, c, KeygenFinalize(sid), a);
    var k := Key(Keygen, sid);
    if k in s.store.sessions { assert Holds(s.hist, k, s.store.sessions[k], InMap(k)); }
    TwoSections(s, c, KeygenFinalize(sid), a);
  }

  lemma WholeSignRound1(s: State, c: nat, sid: string, cm: Option<Bytes>, share: Option<Bytes>, message: Option<Bytes>, a: Answer)
    requires c !in s.flights
    ensures var t, k := After(s, c, SignRound1(sid, cm, share, message), a), Key(Sign, sid);
            if cm.None? || share.None? || message.None? || share.value in s.store.exported then
              Leaves(t, c, s.store, s.hist.next, Rejected)
            else Leaves(t, c, With(s.store, k, SignSession(Some(s.hist.next), message.value, false, share.value)),
                        s.hist.next + 1, Continued)
  {
    WholeIsRun(s, c, SignRound1(sid, cm, share, message), a);
    var s2 := Section(Step(s, Begin(c, SignRound1(sid, cm, share, message))), c, a);
    if s2.flights[c].stage.Ended? { EndedStays(s2, c, a); }
    else {
      var s3 := Section(s2, c, a);
      Inserted(s3, c, a);
      EndedStays(Section(s3, c, a), c, a);
    }
  }

  lemma WholeSignRound2(s: State, c: nat, sid: string, package: Option<Bytes>, a: Answer)
    requires Inv(s) && c !in s.flights
    ensures var t, k := After(s, c, SignRound2(sid, package), a), Key(Sign, sid);
            if package.None? || k !in s.store.sessions then Leaves(t, c, s.store, s.hist.next, Rejected)
            else
              && s.store.sessions[k].SignSession? && s.store.sessions[k].nonces.Some?
              && Leaves(t, c, Without(s.store, k), s.hist.next,
                        if package.value != s.store.sessions[k].message || a.Refused? then Rejected else Signed)
  {
    WholeIsRun(s, c, SignRound2(sid, package), a);
    var k := Key(Sign, sid);
    if k in s.store.sessions { assert Holds(s.hist, k, s.store.sessions[k], InMap(k)); }
    TwoSections(s, c, SignRound2(sid, package), a);
  }

  lemma WholeRecoverRound1(s: State, c: nat, sid: string, payload: Option<Bytes>, backup: Option<Bytes>,
      rv: Option<int>, a: Answer)
    requires c !in s.flights
    ensures var t, k := After(s, c, RecoverRound1(sid, payload, backup, rv), a), Key(Recover, sid);
            if payload.None? || backup.None? || rv.None? || a.Refused? then Leaves(t, c, s.store, s.hist.next, Rejected)
            else Leaves(t, c, With(s.store, k, RecoverySession(LibState(s.hist.next, 1), payload.value, rv.value,
                                                               s.store.clock, backup.value)),
                        s.hist.next + 1, Continued)
  {
    WholeIsRun(s, c, RecoverRound1(sid, payload, backup, rv), a);
    var s2 := Section(Step(s, Begin(c, RecoverRound1(sid, payload, backup, rv))), c, a);
    if s2.flights[c].stage.Ended? { EndedStays(s2, c, a); }
    else {
      Inserted(s2, c, a);
      EndedStays(Section(s2, c, a), c, a);
    }
  }

  /** The session is there but too old to go on. */
  predicate Expired(st: Store, k: Key) {
    k in st.sessions && st.sessions[k].RecoverySession? && st.clock - st.sessions[k].createdAt > SESSION_TTL
  }

  lemma WholeRecoverRound2(s: State, c: nat, sid: string, payload: Option<Bytes>, a: Answer)
    requires Inv(s) && c !in s.flights
    ensures var t, k := After(s, c, RecoverRound2(sid, payload), a), Key(Recover, sid);
            if k !in s.store.sessions then Leaves(t, c, s.store, s.hist.next, Rejected)
            else if Expired(s.store, k) then Leaves(t, c, Without(s.store, k), s.hist.next, Rejected)
            else if payload.None? then Leaves(t, c, s.store, s.hist.next, Rejected)
            else
              && s.store.sessions[k].RecoverySession?
              && if a.Refused? then Leaves(t, c, Without(s.store, k), s.hist.next, Rejected)
                 else Leaves(t, c, With(s.store, k, Renewed(s.store.sessions[k], s.hist.next, payload.value)),
                     s.hist.next + 1, Continued)
  {
    WholeIsRun(s, c, RecoverRound2(sid, payload), a);
    var k := Key(Recover, sid);
    var s2 := Section(Step(s, Begin(c, RecoverRound2(sid, payload))), c, a);
    if s2.flights[c].stage.Ended? { EndedStays(s2, c, a); }
    else {
      var x := s.store.sessions[k];
      assert Holds(s.hist, k, x, InMap(k));
      HeldRenewed(Section(s2, c, a), c, k, x, a);
      PutBack(s.store, k, Renewed(x, s.hist.next, payload.value));
    }
  }

  lemma WholeRecoverFinalize(s: State, c: nat, sid: string, a: Answer)
    requires Inv(s) && c !in s.flights
    ensures var t, k := After(s, c, RecoverFinalize(sid), a), Key(Recover, sid);
            if k !in s.store.sessions then Leaves(t, c, s.store, s.hist.next, Rejected)
            else
              && s.store.sessions[k].RecoverySession?
              && var x := s.store.sessions[k];
                 if a.Refused? || a.key != x.vk then Leaves(t, c, Without(s.store, k), s.hist.next, Rejected)
                 else Leaves(t, c, Without(s.store, k), s.hist.next,
                             Rotated(x.vk, NextVersion(x.version), OriginOf(s.hist, x.rlib.id).starter))
  {
    WholeIsRun(s, c, RecoverFinalize(sid), a);
    var k := Key(Recover, sid);
    if k in s.store.sessions { assert Holds(s.hist, k, s.store.sessions[k], InMap(k)); }
    TwoSections(s, c, RecoverFinalize(sid), a);
  }

  lemma WholeExport(s: State, c: nat, local: Option<Bytes>, server: Option<Bytes>, a: Answer)
    requires c !in s.flights
    ensures var t := After(s, c, Export(local, server), a);
            if local.None? || local != server || a.Refused? then Leaves(t, c, s.store, s.hist.next, Rejected)
            else Leaves(t, c, s.store.(exported := s.store.exported + {local.value}), s.hist.next, Exported(local.value))
  {
    WholeIsRun(s, c, Export(local, server), a);
    TwoSections(s, c, Export(local, server), a);
  }

  lemma StoredTyped(s: State, k: Key)
    requires Inv(s) && k in s.store.sessions
    ensures Holds(s.hist, k, s.store.sessions[k], InMap(k))
  {
  }

  // ── The effect of a call that nothing interrupts ────────────────────

  /** The maps, the next identity and the outcome. */
  datatype Net = Net(store: Store, next: nat, outcome: Outcome)

  function Unchanged(s: State): Net { Net(s.store, s.hist.next, Rejected) }

  function Dropped(s: State, k: Key, o: Outcome): Net { Net(Without(s.store, k), s.hist.next, o) }

  function Stored(s: State, k: Key, x: Session): Net { Net(With(s.store, k, x), s.hist.next + 1, Continued) }

  /** The library call a request leads to, if it leads to one. */
  function Asks(s: State, r: Request): Option<LibCall> {
    var k := if KeyOf(r).Some? then KeyOf(r).value else Key(Keygen, "");
    var x := if k in s.store.sessions then Some(s.store.sessions[k]) else None;
    match r
    case KeygenRound1(_, Some(payload)) => Some(Part1(s.hist.next))
    case KeygenRound2(_, Some(payload)) =>
      if x.Some? && x.value.KeygenSession? then Some(Part2(x.value.lib, x.value.pending)) else None
    case KeygenFinalize(_) =>
      if x.Some? && x.value.KeygenSession? then Some(Part3(x.value.lib, x.value.pending)) else None
    case SignRound2(_, Some(package)) =>
      if x.Some? && x.value.SignSession? && x.value.nonces.Some? && package == x.value.message
      then Some(SignAndAggregate(x.value.nonces.value, package)) else None
    case RecoverRound1(_, Some(payload), Some(backup), Some(rotation)) => Some(Part1(s.hist.next))
    case RecoverRound2(_, Some(payload)) =>
      if x.Some? && x.value.RecoverySession? && !Expired(s.store, k) then Some(Part2(x.value.rlib, x.value.rpending)) else None
    case RecoverFinalize(_) =>
      if x.Some? && x.value.RecoverySession? then Some(Part3(x.value.rlib, x.value.rpending)) else None
    case Export(Some(local), Some(server)) => if local == server then Some(Reconstruct(local)) else None
    case _ => None
  }

  function Answered(library: LibCall -> Answer, s: State, r: Request): Answer {
    if Asks(s, r).Some? then library(Asks(s, r).value) else Refused
  }

  function Effect(s: State, r: Request, a: Answer): Net {
    var k := if KeyOf(r).Some? then KeyOf(r).value else Key(Keygen, "");
    if r.Export? then
      if r.local.None? || r.local != r.server || a.Refused? then Unchanged(s)
      else Net(s.store.(exported := s.store.exported + {r.local.value}), s.hist.next, Exported(r.local.value))
    else if r.KeygenRound1? then
      if r.payload.None? || a.Refused? then Unchanged(s)
      else Stored(s, k, KeygenSession(LibState(s.hist.next, 1), r.payload.value))
    else if r.SignRound1? then
      if r.commitments.None? || r.share.None? || r.message.None? || r.share.value in s.store.exported then Unchanged(s)
      else Stored(s, k, SignSession(Some(s.hist.next), r.message.value, false, r.share.value))
    else if r.RecoverRound1? then
      if r.payload.None? || r.backup.None? || r.rotation.None? || a.Refused? then Unchanged(s)
      else Stored(s, k, RecoverySession(LibState(s.hist.next, 1), r.payload.value, r.rotation.value, s.store.clock,
          r.backup.value))
    else if k !in s.store.sessions then Unchanged(s)
    else Continuation(s, k, s.store.sessions[k], r, a)
  }

  /** The effect of a later round on the session it finds. */
  function Continuation(s: State, k: Key, x: Session, r: Request, a: Answer): Net {
    if r.RecoverRound2? && Expired(s.store, k) then Dropped(s, k, Rejected)
    else if (r.KeygenRound2? || r.RecoverRound2?) && r.payload.None? then Unchanged(s)
    else if r.SignRound2? && r.package.None? then Unchanged(s)
    else if a.Refused? then Dropped(s, k, Rejected)
    else if (r.KeygenRound2? && x.KeygenSession?) || (r.RecoverRound2? && x.RecoverySession?) then
      Stored(s, k, Renewed(x, s.hist.next, r.payload.value))
    else if r.KeygenFinalize? then Dropped(s, k, KeyReady(a.key))
    else if r.SignRound2? && x.SignSession? then Dropped(s, k, if r.package.value == x.message then Signed else Rejected)
    else if r.RecoverFinalize? && x.RecoverySession? && a.key == x.vk then
      Dropped(s, k, Rotated(x.vk, NextVersion(x.version), OriginOf(s.hist, x.rlib.id).starter))
    else Dropped(s, k, Rejected)
  }

  /** The effect of the second round of a recovery, case by case. */
  lemma RecoverRound2Effect(library: LibCall -> Answer, s: State, sid: string, payload: Option<Bytes>)
    requires var k := Key(Recover, sid); k in s.store.sessions ==> s.store.sessions[k].RecoverySession?
    ensures var k, r := Key(Recover, sid), RecoverRound2(sid, payload);
            Effect(s, r, Answered(library, s, r)) ==
              if k !in s.store.sessions then Unchanged(s)
              else if Expired(s.store, k) then Dropped(s, k, Rejected)
              else if payload.None? then Unchanged(s)
              else
                var x := s.store.sessions[k];
                if library(Part2(x.rlib, x.rpending)).Refused? then Dropped(s, k, Rejected)
                else Stored(s, k, Renewed(x, s.hist.next, payload.value))
  {
  }

  ghost predicate HasEffect(s: State, c: nat, r: Request, a: Answer) {
    var e := Effect(s, r, a);
    Leaves(After(s, c, r, a), c, e.store, e.next, e.outcome)
  }

  /** What call `c` has done, from `s` to `t`: run its sections, to this effect. */
  ghost predicate Performed(s: State, t: State, c: nat, r: Request, a: Answer) {
    t == After(s, c, r, a) && HasEffect(s, c, r, a) && Inv(t)
  }

  lemma FirstRounds(s: State, c: nat, r: Request, a: Answer)
    requires Inv(s) && c !in s.flights
    requires r.KeygenRound1? || r.SignRound1? || r.RecoverRound1? || r.Export?
    ensures HasEffect(s, c, r, a)
  {
    match r
    case KeygenRound1(sid, payload) => WholeKeygenRound1(s, c, sid, payload, a);
    case SignRound1(sid, cm, share, message) => WholeSignRound1(s, c, sid, cm, share, message, a);
    case RecoverRound1(sid, payload, backup, rv) => WholeRecoverRound1(s, c, sid, payload, backup, rv, a);
    case Export(local, server) => WholeExport(s, c, local, server, a);
  }

  lemma SecondRounds(s: State, c: nat, r: Request, a: Answer)
    requires Inv(s) && c !in s.flights
    requires r.KeygenRound2? || r.SignRound2? || r.RecoverRound2?
    ensures HasEffect(s, c, r, a)
  {
    match r
    case KeygenRound2(sid, payload) => WholeKeygenRound2(s, c, sid, payload, a);
    case SignRound2(sid, package) => WholeSignRound2(s, c, sid, package, a);
    case RecoverRound2(sid, payload) => WholeRecoverRound2(s, c, sid, payload, a);
  }

  lemma LastKeygenRound(s: State, c: nat, sid: string, a: Answer)
    requires Inv(s) && c !in s.flights
    ensures HasEffect(s, c, KeygenFinalize(sid), a)
  {
    WholeKeygenFinalize(s, c, sid, a);
  }

  lemma LastRecoverRound(s: State, c: nat, sid: string, a: Answer)
    requires Inv(s) && c !in s.flights
    ensures HasEffect(s, c, RecoverFinalize(sid), a)
  {
    WholeRecoverFinalize(s, c, sid, a);
  }

  /** All the sections of an undisturbed call together have this effect. */
  lemma WholeCall(s: State, c: nat, r: Request, a: Answer)
    requires Inv(s) && c !in s.flights
    ensures Performed(s, After(s, c, r, a), c, r, a)
  {
    InvRun(s, Trace(c, r, a));
    if r.KeygenRound1? || r.SignRound1? || r.RecoverRound1? || r.Export? { FirstRounds(s, c, r, a); }
    else if r.KeygenRound2? || r.SignRound2? || r.RecoverRound2? { SecondRounds(s, c, r, a); }
    else if r.KeygenFinalize? { LastKeygenRound(s, c, r.sid, a); }
    else { LastRecoverRound(s, c, r.sid, a); }
  }
}

/** Who owns the protocol tasks of the DKLs23 engine, under concurrent callers.

    Every call of `keygen`, `recover` and `sign` on the secp256k1 path is a flight that moves in
    atomic sections, cut where the code takes and releases the lock of a session map.  A task is the
    join handle of one spawned protocol run; what the run does is an argument of each section. */
module TaskSessions {
  import opened Wrappers
  import opened SessionKeys

  /** `consumed` is a field of sign sessions, `createdAt` of recovery sessions. */
  datatype Session = Session(task: Option<nat>, consumed: bool, createdAt: nat)

  /** Round 0 exists for keygen and recovery; for signing it is an ordinary later round. */
  datatype Request = Round1(key: Key) | Later(key: Key) | Collect(key: Key)

  /** What the code outside the locks comes to: an error, a batch of messages, or a closed channel. */
  datatype Answer = Fails | Batch | Closed

  datatype Outcome = Rejected | Continued | Completed

  datatype Stage =
    | Ready
    | Spawned(mine: nat)          // round 1: the task runs, nothing injected yet
    | Inserting(ins: nat)         // round 1: first batch collected
    | Got                         // later round: sender cloned, lock released
    | Resetting                   // later sign round: batch collected, `consumed` still set
    | Removing                    // later round: the task has closed its channel
    | Joining(join: nat, ok: Outcome)
    | Ended(outcome: Outcome)

  datatype Flight = Flight(req: Request, stage: Stage)

  // ── State ───────────────────────────────────────────────────────────

  datatype Store = Store(sessions: map<Key, Session>, clock: nat)

  datatype Fate =
    | InMap
    | InHand(call: nat)
    | Joined
    | Aborted
    | Overwritten(over: nat)        // handle dropped by an insert over its session
    | ClosedEarly                 // handle dropped when round 1 got no message

  datatype Info = Info(fate: Fate, key: Key, creator: nat)

  datatype History = History(info: map<nat, Info>, ends: seq<nat>, next: nat)

  datatype State = State(store: Store, flights: map<nat, Flight>, hist: History)

  const INIT := State(Store(map[], 0), map[], History(map[], [], 0))

  datatype Action = Begin(call: nat, req: Request) | Go(gcall: nat, answer: Answer) | Tick(seconds: nat)

  // ── Pieces of a section ─────────────────────────────────────────────

  function At(s: State, c: nat, st: Stage): State
    requires c in s.flights
  {
    s.(flights := s.flights[c := Flight(s.flights[c].req, st)])
  }

  function Fated(s: State, t: nat, f: Fate): State {
    if t in s.hist.info then s.(hist := s.hist.(info := s.hist.info[t := s.hist.info[t].(fate := f)])) else s
  }

  /** The join handle is used up: awaited or aborted. */
  function Finished(s: State, t: nat, f: Fate): State {
    var s1 := Fated(s, t, f);
    s1.(hist := s1.hist.(ends := s1.hist.ends + [t]))
  }

  function Put(s: State, k: Key, x: Session): State {
    s.(store := s.store.(sessions := s.store.sessions[k := x]))
  }

  function Drop(s: State, k: Key): State {
    s.(store := s.store.(sessions := s.store.sessions - {k}))
  }

  /** Lock section: remove the session and take its handle out. */
  function Remove(s: State, c: nat, k: Key): State
    requires c in s.flights
  {
    if k !in s.store.sessions then At(s, c, Ended(Rejected))
    else
      var x := s.store.sessions[k];
      if x.task.None? then At(Drop(s, k), c, Ended(Rejected))
      else At(Fated(Drop(s, k), x.task.value, InHand(c)), c, Joining(x.task.value, Completed))
  }

  // ── Sections ────────────────────────────────────────────────────────

  function Spawn(s: State, c: nat): State
    requires c in s.flights
  {
    var t := s.hist.next;
    At(s.(hist := s.hist.(info := s.hist.info[t := Info(InHand(c), s.flights[c].req.key, c)], next := t + 1)), c, Spawned(t))
  }

  /** First lock section of a later round. */
  function Get(s: State, c: nat, k: Key): State
    requires c in s.flights
  {
    if k !in s.store.sessions then At(s, c, Ended(Rejected))
    else
      var x := s.store.sessions[k];
      if k.op.Recover? && s.store.clock - x.createdAt > SESSION_TTL then
        var s1 := Drop(s, k);
        At(if x.task.Some? then Finished(s1, x.task.value, Aborted) else s1, c, Ended(Rejected))
      else if k.op.Sign? && x.consumed then At(s, c, Ended(Rejected))
      else At(s, c, Got)
  }

  function Start(s: State, c: nat, a: Answer): State
    requires c in s.flights
  {
    match s.flights[c].req
    case Round1(k) => if a.Fails? then At(s, c, Ended(Rejected)) else Spawn(s, c)
    case Later(k) => Get(s, c, k)
    case Collect(k) => if k.op.Sign? then Get(s, c, k) else Remove(s, c, k)
  }

  /** Round 1 after the spawn: inject the server's messages and collect the first batch. */
  function FirstBatch(s: State, c: nat, t: nat, a: Answer): State
    requires c in s.flights
  {
    match a
    case Fails => At(Finished(s, t, Aborted), c, Ended(Rejected))
    case Batch => At(s, c, Inserting(t))
    case Closed =>
      if s.flights[c].req.key.op.Keygen? then At(s, c, Joining(t, Rejected))
      else At(Fated(s, t, ClosedEarly), c, Ended(Rejected))
  }

  /** An insert drops the session already there, with its handle. */
  function Clear(s: State, c: nat, k: Key): State {
    if k !in s.store.sessions then s
    else if s.store.sessions[k].task.None? then Drop(s, k)
    else Fated(Drop(s, k), s.store.sessions[k].task.value, Overwritten(c))
  }

  /** Lock section: insert the new session. */
  function Insert(s: State, c: nat, t: nat): State
    requires c in s.flights
  {
    var k := s.flights[c].req.key;
    var s1 := Clear(s, c, k);
    At(Fated(Put(s1, k, Session(Some(t), false, s.store.clock)), t, InMap), c, Ended(Continued))
  }

  /** A later round: inject, then collect a batch under the lock.  Signing marks the session. */
  function CollectBatch(s: State, c: nat, a: Answer): State
    requires c in s.flights
  {
    var k := s.flights[c].req.key;
    if a.Fails? || k !in s.store.sessions then At(s, c, Ended(Rejected))
    else
      var s1 := if k.op.Sign? then Put(s, k, s.store.sessions[k].(consumed := true)) else s;
      At(s1, c, if a.Closed? then Removing else if k.op.Sign? then Resetting else Ended(Continued))
  }

  function Reset(s: State, c: nat): State
    requires c in s.flights
  {
    var k := s.flights[c].req.key;
    var s1 := if k in s.store.sessions then Put(s, k, s.store.sessions[k].(consumed := false)) else s;
    At(s1, c, Ended(Continued))
  }

  function Section(s: State, c: nat, a: Answer): State {
    if c !in s.flights then s
    else
      match s.flights[c].stage
      case Ready => Start(s, c, a)
      case Spawned(t) => FirstBatch(s, c, t, a)
      case Inserting(t) => Insert(s, c, t)
      case Got => CollectBatch(s, c, a)
      case Resetting => Reset(s, c)
      case Removing => Remove(s, c, s.flights[c].req.key)
      case Joining(t, ok) => At(Finished(s, t, Joined), c, Ended(if a.Fails? then Rejected else ok))
      case Ended(_) => s
  }

  function Step(s: State, a: Action): State {
    match a
    case Begin(c, req) => if c in s.flights then s else s.(flights := s.flights[c := Flight(req, Ready)])
    case Go(c, answer) => Section(s, c, answer)
    case Tick(n) => s.(store := s.store.(clock := s.store.clock + n))
  }

  function Run(s: State, acts: seq<Action>): State
    decreases acts
  {
    if acts == [] then s else Run(Step(s, acts[0]), acts[1..])
  }

  // ── Invariant ───────────────────────────────────────────────────────

  /** The task a call has in its hands. */
  function Hand(st: Stage): Option<nat> {
    match st
    case Spawned(t) => Some(t)
    case Inserting(t) => Some(t)
    case Joining(t, _) => Some(t)
    case _ => None
  }

  ghost predicate StoreOk(st: Store, h: History) {
    forall k :: k in st.sessions ==>
      && st.sessions[k].task.Some? && st.sessions[k].task.value in h.info
      && h.info[st.sessions[k].task.value].fate.InMap? && h.info[st.sessions[k].task.value].key == k
  }

  ghost predicate FlightOk(h: History, c: nat, f: Flight) {
    && (Hand(f.stage).Some? ==>
          && Hand(f.stage).value in h.info && h.info[Hand(f.stage).value].fate == InHand(c)
          && h.info[Hand(f.stage).value].key == f.req.key)
    && (f.stage.Spawned? || f.stage.Inserting? ==> f.req.Round1? && h.info[Hand(f.stage).value].creator == c)
    && (f.stage.Got? || f.stage.Resetting? || f.stage.Removing? ==> !f.req.Round1?)
    && (f.stage.Ready? ==> forall t :: t in h.info ==> h.info[t].creator != c)
  }

  ghost predicate FlightsOk(flights: map<nat, Flight>, h: History) {
    forall c :: c in flights ==> FlightOk(h, c, flights[c])
  }

  /** Where each task is: in its session, in the hands of one call, or done with. */
  ghost predicate TaskOk(s: State, t: nat, i: Info) {
    && i.creator in s.flights && s.flights[i.creator].req == Round1(i.key)
    && (i.fate.InMap? ==> i.key in s.store.sessions && s.store.sessions[i.key].task == Some(t))
    && (i.fate.InHand? ==> i.fate.call in s.flights && Hand(s.flights[i.fate.call].stage) == Some(t))
    && (i.fate.Overwritten? ==> i.fate.over in s.flights && s.flights[i.fate.over].req == Round1(i.key) && i.fate.over != i.creator)
  }

  ghost predicate TasksOk(s: State) {
    forall t :: t in s.hist.info ==> t < s.hist.next && TaskOk(s, t, s.hist.info[t])
  }

  ghost predicate CreatorsOk(h: History) {
    forall t, u :: t in h.info && u in h.info && h.info[t].creator == h.info[u].creator ==> t == u
  }

  ghost predicate EndsOk(h: History) {
    && (forall t :: t in h.info ==> ((h.info[t].fate.Joined? || h.info[t].fate.Aborted?) <==> t in h.ends))
    && (forall i :: 0 <= i < |h.ends| ==> h.ends[i] in h.info)
    && (forall i, j :: 0 <= i < j < |h.ends| ==> h.ends[i] != h.ends[j])
  }

  /** A sign session is marked only while some call is between collecting and resetting. */
  ghost predicate MarksOk(s: State) {
    forall k :: k in s.store.sessions && s.store.sessions[k].consumed ==> Marker(s, k)
  }

  ghost predicate Marker(s: State, k: Key) {
    exists c :: c in s.flights && s.flights[c].req.key == k && (s.flights[c].stage.Resetting? || s.flights[c].stage.Removing?)
  }

  ghost predicate Inv(s: State) {
    && StoreOk(s.store, s.hist) && FlightsOk(s.flights, s.hist) && TasksOk(s)
    && CreatorsOk(s.hist) && EndsOk(s.hist) && MarksOk(s)
  }

  // ── Each section keeps it ───────────────────────────────────────────

  /** A section that only moves its own call on, not holding a task before or after. */
  lemma MoveKeeps(s: State, c: nat, st: Stage)
    requires Inv(s) && c in s.flights && Hand(s.flights[c].stage).None? && Hand(st).None? && !st.Ready?
    requires st.Got? || st.Resetting? || st.Removing? ==> !s.flights[c].req.Round1?
    requires s.flights[c].stage.Resetting? || s.flights[c].stage.Removing? ==>
               s.flights[c].req.key !in s.store.sessions || !s.store.sessions[s.flights[c].req.key].consumed
    ensures Inv(At(s, c, st))
  {
    var t := At(s, c, st);
    MarksFrame(s, t, c);
  }

  /** Marks need only the calls that were moved to be looked at again. */
  lemma MarksFrame(s: State, t: State, c: nat)
    requires MarksOk(s) && c in s.flights && c in t.flights && t.flights[c].req == s.flights[c].req
    requires forall d :: d in s.flights && d != c ==> d in t.flights && t.flights[d] == s.flights[d]
    requires forall k :: k in t.store.sessions && t.store.sessions[k].consumed ==> k in s.store.sessions && s.store.sessions[k].consumed
    requires s.flights[c].stage.Resetting? || s.flights[c].stage.Removing? ==>
               s.flights[c].req.key !in t.store.sessions || !t.store.sessions[s.flights[c].req.key].consumed
    ensures MarksOk(t)
  {
    forall k | k in t.store.sessions && t.store.sessions[k].consumed ensures Marker(t, k) {
      assert Marker(s, k);
      var d :| d in s.flights && s.flights[d].req.key == k && (s.flights[d].stage.Resetting? || s.flights[d].stage.Removing?);
      assert d != c;
    }
  }

  lemma SpawnTasks(s: State, c: nat)
    requires TasksOk(s) && c in s.flights && s.flights[c].stage.Ready? && s.flights[c].req.Round1?
    ensures TasksOk(Spawn(s, c))
  {
    var t := Spawn(s, c);
    forall u | u in t.hist.info ensures u < t.hist.next && TaskOk(t, u, t.hist.info[u]) {
      if u != s.hist.next { assert TaskOk(s, u, s.hist.info[u]); }
    }
  }

  lemma SpawnFlights(s: State, c: nat)
    requires FlightsOk(s.flights, s.hist) && TasksOk(s) && c in s.flights && s.flights[c].stage.Ready? && s.flights[c].req.Round1?
    ensures FlightsOk(Spawn(s, c).flights, Spawn(s, c).hist)
  {
    var t := Spawn(s, c);
    assert s.hist.next !in s.hist.info;
    forall d | d in t.flights ensures FlightOk(t.hist, d, t.flights[d]) {
      if d != c { assert FlightOk(s.hist, d, s.flights[d]); }
    }
  }

  lemma SpawnKeeps(s: State, c: nat)
    requires Inv(s) && c in s.flights && s.flights[c].stage.Ready? && s.flights[c].req.Round1?
    ensures Inv(Spawn(s, c))
  {
    var t := Spawn(s, c);
    assert s.hist.next !in s.hist.info;
    assert FlightOk(s.hist, c, s.flights[c]);
    MarksFrame(s, t, c);
    SpawnTasks(s, c);
    SpawnFlights(s, c);
    hide MarksOk, TasksOk, FlightsOk, FlightOk;
  }

  /** Only call `c`, its task `t0` and the session of that task have changed. */
  ghost predicate Local(s: State, t: State, c: nat, t0: nat) {
    && c in s.flights && c in t.flights && t.flights[c].req == s.flights[c].req
    && t.flights == s.flights[c := t.flights[c]] && t.hist.next == s.hist.next
    && t0 in s.hist.info && t0 in t.hist.info
    && t.hist.info == s.hist.info[t0 := t.hist.info[t0]]
    && t.hist.info[t0] == s.hist.info[t0].(fate := t.hist.info[t0].fate)
    && (Hand(s.flights[c].stage).Some? ==> Hand(s.flights[c].stage) == Some(t0))
  }

  /** The task was not in the map and is not now, or its session came or went. */
  ghost predicate Stays(s: State, t: State, t0: nat)
    requires t0 in s.hist.info && t0 in t.hist.info
  {
    !s.hist.info[t0].fate.InMap? && !t.hist.info[t0].fate.InMap? && t.store == s.store
  }

  ghost predicate Comes(s: State, t: State, t0: nat)
    requires t0 in s.hist.info && t0 in t.hist.info
  {
    var k := s.hist.info[t0].key;
    && !s.hist.info[t0].fate.InMap? && t.hist.info[t0].fate.InMap?
    && k !in s.store.sessions && k in t.store.sessions && t.store.sessions[k].task == Some(t0)
    && t.store.sessions == s.store.sessions[k := t.store.sessions[k]]
  }

  ghost predicate Goes(s: State, t: State, t0: nat)
    requires t0 in s.hist.info && t0 in t.hist.info
  {
    var k := s.hist.info[t0].key;
    && s.hist.info[t0].fate.InMap? && !t.hist.info[t0].fate.InMap? && t.store.sessions == s.store.sessions - {k}
  }

  lemma LocalTasks(s: State, t: State, c: nat, t0: nat)
    requires TasksOk(s)
    requires Local(s, t, c, t0) && (Stays(s, t, t0) || Comes(s, t, t0) || Goes(s, t, t0))
    requires StoreOk(s.store, s.hist) && TaskOk(t, t0, t.hist.info[t0])
    ensures TasksOk(t)
  {
    forall u | u in t.hist.info ensures u < t.hist.next && TaskOk(t, u, t.hist.info[u]) {
      if u != t0 { assert TaskOk(s, u, s.hist.info[u]); }
    }
  }

  lemma LocalStore(s: State, t: State, c: nat, t0: nat)
    requires StoreOk(s.store, s.hist)
    requires Local(s, t, c, t0) && (Stays(s, t, t0) || Comes(s, t, t0) || Goes(s, t, t0))
    ensures StoreOk(t.store, t.hist)
  {
  }

  lemma LocalFlights(s: State, t: State, c: nat, t0: nat)
    requires FlightsOk(s.flights, s.hist) && Local(s, t, c, t0)
    requires s.hist.info[t0].fate.InMap? || s.hist.info[t0].fate == InHand(c)
    requires FlightOk(t.hist, c, t.flights[c])
    ensures FlightsOk(t.flights, t.hist)
  {
    forall d | d in t.flights ensures FlightOk(t.hist, d, t.flights[d]) {
      if d != c { assert FlightOk(s.hist, d, s.flights[d]); }
    }
  }

  lemma LocalKeeps(s: State, t: State, c: nat, t0: nat)
    requires StoreOk(s.store, s.hist) && FlightsOk(s.flights, s.hist) && TasksOk(s) && CreatorsOk(s.hist)
    requires Local(s, t, c, t0) && (Stays(s, t, t0) || Comes(s, t, t0) || Goes(s, t, t0))
    requires s.hist.info[t0].fate.InMap? || s.hist.info[t0].fate == InHand(c)
    requires FlightOk(t.hist, c, t.flights[c]) && TaskOk(t, t0, t.hist.info[t0])
    ensures StoreOk(t.store, t.hist) && FlightsOk(t.flights, t.hist) && TasksOk(t) && CreatorsOk(t.hist)
  {
    LocalTasks(s, t, c, t0);
    LocalStore(s, t, c, t0);
    LocalFlights(s, t, c, t0);
    hide TasksOk, TaskOk, StoreOk, FlightsOk, FlightOk, Stays, Comes, Goes;
  }

  /** A task's handle is used up at most once. */
  lemma EndKeeps(h: History, t0: nat, f: Fate)
    requires EndsOk(h) && t0 in h.info && t0 !in h.ends
    ensures var h1 := h.(info := h.info[t0 := h.info[t0].(fate := f)]);
            if f.Joined? || f.Aborted? then EndsOk(h1.(ends := h.ends + [t0])) else EndsOk(h1)
  {
    var es := h.ends + [t0];
    forall t | t in es ensures t in h.ends || t == t0 {}
    forall t | t in h.ends ensures t in es { var i :| 0 <= i < |h.ends| && h.ends[i] == t; assert es[i] == t; }
    assert es[|h.ends|] == t0;
  }

  lemma TakenOut(s: State, c: nat, t0: nat)
    requires Inv(s) && c in s.flights && !s.flights[c].req.Round1? && Hand(s.flights[c].stage).None?
    requires var k := s.flights[c].req.key; k in s.store.sessions && s.store.sessions[k].task == Some(t0)
    ensures var t := Remove(s, c, s.flights[c].req.key);
            && Local(s, t, c, t0) && Goes(s, t, t0) && s.hist.info[t0].fate.InMap?
            && FlightOk(t.hist, c, t.flights[c]) && TaskOk(t, t0, t.hist.info[t0])
            && t.hist == s.hist.(info := s.hist.info[t0 := s.hist.info[t0].(fate := InHand(c))])
  {
    assert TaskOk(s, t0, s.hist.info[t0]);
  }

  lemma RemoveKeeps(s: State, c: nat)
    requires Inv(s) && c in s.flights && !s.flights[c].req.Round1? && (s.flights[c].stage.Ready? || s.flights[c].stage.Removing?)
    ensures Inv(Remove(s, c, s.flights[c].req.key))
  {
    var k := s.flights[c].req.key;
    var t := Remove(s, c, k);
    if k in s.store.sessions {
      var t0 := s.store.sessions[k].task.value;
      TakenOut(s, c, t0);
      MarksFrame(s, t, c);
      EndKeeps(s.hist, t0, InHand(c));
      hide TaskOk, FlightOk, Goes, CreatorsOk, MarksOk, EndsOk, StoreOk, FlightsOk, TasksOk, Remove;
      LocalKeeps(s, t, c, t0);
    } else {
      MoveKeeps(s, c, Ended(Rejected));
    }
  }

  lemma GetKeeps(s: State, c: nat)
    requires Inv(s) && c in s.flights && s.flights[c].stage.Ready? && !s.flights[c].req.Round1?
    ensures Inv(Get(s, c, s.flights[c].req.key))
  {
    var k := s.flights[c].req.key;
    var t := Get(s, c, k);
    if t == At(s, c, Got) { MoveKeeps(s, c, Got); }
    else if k !in s.store.sessions || (k.op.Sign? && s.store.sessions[k].consumed) { MoveKeeps(s, c, Ended(Rejected)); }
    else {
      var t0 := s.store.sessions[k].task.value;
      MarksFrame(s, t, c);
      EndKeeps(s.hist, t0, Aborted);
      LocalKeeps(s, t, c, t0);
    }
  }

  /** The task in hand goes with its call to another stage. */
  lemma CarryKeeps(s: State, c: nat, st: Stage)
    requires Inv(s) && c in s.flights && Hand(s.flights[c].stage).Some? && Hand(st) == Hand(s.flights[c].stage)
    requires st.Joining? || (st.Inserting? && s.flights[c].stage.Spawned?)
    ensures Inv(At(s, c, st))
  {
    var t0 := Hand(st).value;
    var t := At(s, c, st);
    assert FlightOk(s.hist, c, s.flights[c]);
    MarksFrame(s, t, c);
    LocalKeeps(s, t, c, t0);
  }

  /** The task in hand is awaited or aborted, or its handle dropped. */
  function LetGo(s: State, c: nat, t0: nat, f: Fate, o: Outcome): State
    requires c in s.flights
  {
    At(if f.ClosedEarly? then Fated(s, t0, f) else Finished(s, t0, f), c, Ended(o))
  }

  lemma LetGoLocal(s: State, c: nat, t0: nat, f: Fate, o: Outcome)
    requires Inv(s) && c in s.flights && Hand(s.flights[c].stage) == Some(t0) && (f.Joined? || f.Aborted? || f.ClosedEarly?)
    ensures var t := LetGo(s, c, t0, f, o);
            && Local(s, t, c, t0) && Stays(s, t, t0) && s.hist.info[t0].fate == InHand(c)
            && FlightOk(t.hist, c, t.flights[c]) && TaskOk(t, t0, t.hist.info[t0]) && t0 !in s.hist.ends
  {
    assert FlightOk(s.hist, c, s.flights[c]) && TaskOk(s, t0, s.hist.info[t0]);
  }

  lemma LetGoKeeps(s: State, c: nat, f: Fate, o: Outcome)
    requires Inv(s) && c in s.flights && Hand(s.flights[c].stage).Some? && (f.Joined? || f.Aborted? || f.ClosedEarly?)
    ensures Inv(LetGo(s, c, Hand(s.flights[c].stage).value, f, o))
  {
    var t0 := Hand(s.flights[c].stage).value;
    LetGoLocal(s, c, t0, f, o);
    hide CreatorsOk, MarksOk, StoreOk, FlightsOk, TasksOk, Stays, Comes, Goes, TaskOk, FlightOk;
    MarksFrame(s, LetGo(s, c, t0, f, o), c);
    hide EndsOk;
    EndKeeps(s.hist, t0, f);
    LocalKeeps(s, LetGo(s, c, t0, f, o), c, t0);
  }

  lemma ClearKeeps(s: State, c: nat, k: Key)
    requires Inv(s) && c in s.flights && s.flights[c].stage.Inserting? && k == s.flights[c].req.key
    ensures Inv(Clear(s, c, k)) && k !in Clear(s, c, k).store.sessions && Clear(s, c, k).flights == s.flights
    ensures Clear(s, c, k).store.sessions == s.store.sessions - {k}
  {
    if k in s.store.sessions {
      var t0, mine := s.store.sessions[k].task.value, s.flights[c].stage.ins;
      var t := Clear(s, c, k);
      assert FlightOk(s.hist, c, s.flights[c]);
      MarksClear(s, t, k);
      EndKeeps(s.hist, t0, Overwritten(c));
      assert t0 != mine && s.hist.info[t0].creator != c;
      ClearLocal(s, t, t0);
    }
  }

  lemma MarksClear(s: State, t: State, k: Key)
    requires MarksOk(s) && t.flights == s.flights && t.store.sessions == s.store.sessions - {k}
    ensures MarksOk(t)
  {
    forall l | l in t.store.sessions && t.store.sessions[l].consumed ensures Marker(t, l) {
      assert Marker(s, l);
    }
  }

  lemma ClearLocal(s: State, t: State, t0: nat)
    requires StoreOk(s.store, s.hist) && FlightsOk(s.flights, s.hist) && TasksOk(s) && CreatorsOk(s.hist)
    requires t0 in s.hist.info && t.flights == s.flights && t.hist.next == s.hist.next
    requires t0 in t.hist.info && t.hist.info == s.hist.info[t0 := t.hist.info[t0]]
    requires t.hist.info[t0] == s.hist.info[t0].(fate := t.hist.info[t0].fate)
    requires Goes(s, t, t0) && TaskOk(t, t0, t.hist.info[t0])
    ensures StoreOk(t.store, t.hist) && FlightsOk(t.flights, t.hist) && TasksOk(t) && CreatorsOk(t.hist)
  {
    forall d | d in t.flights ensures FlightOk(t.hist, d, t.flights[d]) {
      assert FlightOk(s.hist, d, s.flights[d]);
    }
    forall u | u in t.hist.info ensures u < t.hist.next && TaskOk(t, u, t.hist.info[u]) {
      if u != t0 { assert TaskOk(s, u, s.hist.info[u]); }
    }
  }

  lemma InsertKeeps(s: State, c: nat)
    requires Inv(s) && c in s.flights && s.flights[c].stage.Inserting?
    ensures Inv(Insert(s, c, s.flights[c].stage.ins))
  {
    var k, t0 := s.flights[c].req.key, s.flights[c].stage.ins;
    ClearKeeps(s, c, k);
    var s1 := Clear(s, c, k);
    var t := Insert(s, c, t0);
    assert FlightOk(s1.hist, c, s1.flights[c]);
    MarksFrame(s1, t, c);
    EndKeeps(s1.hist, t0, InMap);
    LocalKeeps(s1, t, c, t0);
  }

  // ── Marking and resetting ───────────────────────────────────────────

  /** Setting or clearing the mark concerns nothing but the marks. */
  lemma MarkKeeps(s: State, k: Key, b: bool)
    requires Inv(s) && k in s.store.sessions
    ensures var t := Put(s, k, s.store.sessions[k].(consumed := b));
            StoreOk(t.store, t.hist) && FlightsOk(t.flights, t.hist) && TasksOk(t) && CreatorsOk(t.hist) && EndsOk(t.hist)
  {
    var t := Put(s, k, s.store.sessions[k].(consumed := b));
    forall u | u in t.hist.info ensures TaskOk(t, u, t.hist.info[u]) { assert TaskOk(s, u, s.hist.info[u]); }
  }

  /** Moving a call on, marks apart. */
  lemma MoveOthers(s: State, c: nat, st: Stage)
    requires StoreOk(s.store, s.hist) && FlightsOk(s.flights, s.hist) && TasksOk(s) && CreatorsOk(s.hist) && EndsOk(s.hist)
    requires c in s.flights && Hand(s.flights[c].stage).None? && Hand(st).None? && !st.Ready?
    requires st.Got? || st.Resetting? || st.Removing? ==> !s.flights[c].req.Round1?
    ensures var t := At(s, c, st);
            StoreOk(t.store, t.hist) && FlightsOk(t.flights, t.hist) && TasksOk(t) && CreatorsOk(t.hist) && EndsOk(t.hist)
  {
  }

  lemma MarkedByCall(s: State, c: nat, k: Key, st: Stage)
    requires MarksOk(s) && c in s.flights && s.flights[c].req.key == k && k in s.store.sessions
    requires st.Resetting? || st.Removing?
    ensures MarksOk(At(Put(s, k, s.store.sessions[k].(consumed := true)), c, st))
  {
    var t := At(Put(s, k, s.store.sessions[k].(consumed := true)), c, st);
    forall l | l in t.store.sessions && t.store.sessions[l].consumed ensures Marker(t, l) {
      if l != k {
        assert Marker(s, l);
        var d :| d in s.flights && s.flights[d].req.key == l && (s.flights[d].stage.Resetting? || s.flights[d].stage.Removing?);
        assert t.flights[d] == s.flights[d];
      } else {
        assert t.flights[c].req.key == l;
      }
    }
  }

  lemma CollectKeeps(s: State, c: nat, a: Answer)
    requires Inv(s) && c in s.flights && s.flights[c].stage.Got?
    ensures Inv(CollectBatch(s, c, a))
  {
    var k := s.flights[c].req.key;
    var t := CollectBatch(s, c, a);
    var st := t.flights[c].stage;
    assert FlightOk(s.hist, c, s.flights[c]);
    hide CreatorsOk, EndsOk, TasksOk, StoreOk, FlightsOk, FlightOk, MarksOk;
    if k.op.Sign? && !(a.Fails? || k !in s.store.sessions) {
      MarkKeeps(s, k, true);
      MoveOthers(Put(s, k, s.store.sessions[k].(consumed := true)), c, st);
      MarkedByCall(s, c, k, st);
    } else {
      MoveKeeps(s, c, st);
    }
  }

  lemma ResetKeeps(s: State, c: nat)
    requires Inv(s) && c in s.flights && s.flights[c].stage.Resetting?
    ensures Inv(Reset(s, c))
  {
    var k := s.flights[c].req.key;
    var t := Reset(s, c);
    MarksFrame(s, t, c);
    hide MarksOk;
    if k in s.store.sessions {
      MarkKeeps(s, k, false);
      MoveOthers(Put(s, k, s.store.sessions[k].(consumed := false)), c, Ended(Continued));
    } else {
      MoveKeeps(s, c, Ended(Continued));
    }
  }

  lemma InvStep(s: State, a: Action)
    requires Inv(s)
    ensures Inv(Step(s, a))
  {
    match a
    case Begin(c, req) => if c !in s.flights { BeginKeeps(s, c, req); }
    case Tick(n) => TickKeeps(s, n);
    case Go(c, answer) =>
      if c in s.flights {
        var st := s.flights[c].stage;
        assert FlightOk(s.hist, c, s.flights[c]);
        match st
        case Ready => StartKeeps(s, c, answer);
        case Spawned(t) => FirstBatchKeeps(s, c, answer);
        case Inserting(t) => InsertKeeps(s, c);
        case Got => CollectKeeps(s, c, answer);
        case Resetting => ResetKeeps(s, c);
        case Removing => RemoveKeeps(s, c);
        case Joining(t, ok) => LetGoKeeps(s, c, Joined, if answer.Fails? then Rejected else ok);
        case Ended(_) =>
      }
  }

  lemma StartKeeps(s: State, c: nat, a: Answer)
    requires Inv(s) && c in s.flights && s.flights[c].stage.Ready?
    ensures Inv(Start(s, c, a))
  {
    match s.flights[c].req
    case Round1(k) => if a.Fails? { MoveKeeps(s, c, Ended(Rejected)); } else { SpawnKeeps(s, c); }
    case Later(k) => GetKeeps(s, c);
    case Collect(k) => if k.op.Sign? { GetKeeps(s, c); } else { RemoveKeeps(s, c); }
  }

  lemma FirstBatchKeeps(s: State, c: nat, a: Answer)
    requires Inv(s) && c in s.flights && s.flights[c].stage.Spawned?
    ensures Inv(FirstBatch(s, c, s.flights[c].stage.mine, a))
  {
    var t0 := s.flights[c].stage.mine;
    match a
    case Fails => LetGoKeeps(s, c, Aborted, Rejected);
    case Batch => CarryKeeps(s, c, Inserting(t0));
    case Closed =>
      if s.flights[c].req.key.op.Keygen? { CarryKeeps(s, c, Joining(t0, Rejected)); }
      else { LetGoKeeps(s, c, ClosedEarly, Rejected); }
  }

  lemma BeginKeeps(s: State, c: nat, req: Request)
    requires Inv(s) && c !in s.flights
    ensures Inv(Step(s, Begin(c, req)))
  {
    var t := Step(s, Begin(c, req));
    forall u | u in t.hist.info ensures t.hist.info[u].creator != c && TaskOk(t, u, t.hist.info[u]) {
      assert TaskOk(s, u, s.hist.info[u]);
    }
    forall k | k in t.store.sessions && t.store.sessions[k].consumed ensures Marker(t, k) {
      assert Marker(s, k);
      var d :| d in s.flights && s.flights[d].req.key == k && (s.flights[d].stage.Resetting? || s.flights[d].stage.Removing?);
      assert t.flights[d] == s.flights[d];
    }
  }

  lemma TickKeeps(s: State, n: nat)
    requires Inv(s)
    ensures Inv(Step(s, Tick(n)))
  {
    var t := Step(s, Tick(n));
    forall u | u in t.hist.info ensures TaskOk(t, u, t.hist.info[u]) { assert TaskOk(s, u, s.hist.info[u]); }
    forall k | k in t.store.sessions && t.store.sessions[k].consumed ensures Marker(t, k) { assert Marker(s, k); }
  }

  lemma {:induction false} InvRun(s: State, acts: seq<Action>)
    requires Inv(s)
    ensures Inv(Run(s, acts))
    decreases acts
  {
    if acts != [] {
      InvStep(s, acts[0]);
      InvRun(Step(s, acts[0]), acts[1..]);
    }
  }
}

/** Two engines behind one API.  `keygen`, `recover` and `sign` send round 1 by the curve they detect,
    and any other round by whether the FROST map holds the session; the lookup and what the engine
    then does are separate lock sections.  The state here is both engines' states side by side. */
module Routing {
  import opened Wrappers
  import opened SessionKeys
  import opened Envelope
  import F = FrostSessions
  import T = TaskSessions

  datatype Engine = Frost | Dkls

  /** What the FROST engine's parsers make of the arguments; `None` where they fail. */
  datatype Args = Args(
    payload: Option<Bytes>, commitments: Option<Bytes>, package: Option<Bytes>, share: Option<Bytes>,
    message: Option<Bytes>, backup: Option<Bytes>, rotation: Option<int>)

  /** `curve` is what round 1 detects: in the server's envelope for keygen, in the share otherwise. */
  datatype Call = Call(op: Op, sid: string, round: int, curve: Curve, args: Args)

  function KeyOf(c: Call): Key { Key(c.op, c.sid) }

  /** The FROST engine's own dispatch on the round; `None` where it has no such round. */
  function FrostRequest(c: Call): Option<F.Request> {
    match (c.op, c.round)
    case (Keygen, 1) => Some(F.KeygenRound1(c.sid, c.args.payload))
    case (Keygen, 2) => Some(F.KeygenRound2(c.sid, c.args.payload))
    case (Keygen, 0) => Some(F.KeygenFinalize(c.sid))
    case (Sign, 1) => Some(F.SignRound1(c.sid, c.args.commitments, c.args.share, c.args.message))
    case (Sign, 2) => Some(F.SignRound2(c.sid, c.args.package))
    case (Recover, 1) => Some(F.RecoverRound1(c.sid, c.args.payload, c.args.backup, c.args.rotation))
    case (Recover, 2) => Some(F.RecoverRound2(c.sid, c.args.payload))
    case (Recover, 0) => Some(F.RecoverFinalize(c.sid))
    case _ => None
  }

  function TaskRequest(c: Call): T.Request {
    if c.round == 1 then T.Round1(KeyOf(c)) else if c.round == 0 then T.Collect(KeyOf(c)) else T.Later(KeyOf(c))
  }

  datatype Where = Arrived | Sent(engine: Engine) | Unsupported

  datatype Entry = Entry(call: Call, at: Where)

  datatype State = State(frost: F.State, dkls: T.State, calls: map<nat, Entry>)

  const INIT := State(F.INIT, T.INIT, map[])

  datatype Action =
    | Arrive(id: nat, call: Call)
    | Dispatch(did: nat)
    | FrostGo(fid: nat, fanswer: F.Answer)
    | DklsGo(tid: nat, tanswer: T.Answer)
    | Tick(seconds: nat)

  /** `keygen`, `recover` and `sign` decide alike. */
  function Route(s: State, c: Call): Engine {
    if RoutesToFrost(c.round, c.curve, KeyOf(c) in s.frost.store.sessions) then Frost else Dkls
  }

  function Send(s: State, id: nat, c: Call): State {
    match Route(s, c)
    case Frost =>
      if FrostRequest(c).None? then s.(calls := s.calls[id := Entry(c, Unsupported)])
      else State(F.Step(s.frost, F.Begin(id, FrostRequest(c).value)), s.dkls, s.calls[id := Entry(c, Sent(Frost))])
    case Dkls => State(s.frost, T.Step(s.dkls, T.Begin(id, TaskRequest(c))), s.calls[id := Entry(c, Sent(Dkls))])
  }

  function Step(s: State, a: Action): State {
    match a
    case Arrive(id, call) => if id in s.calls then s else s.(calls := s.calls[id := Entry(call, Arrived)])
    case Dispatch(id) => if id in s.calls && s.calls[id].at.Arrived? then Send(s, id, s.calls[id].call) else s
    case FrostGo(id, answer) => s.(frost := F.Step(s.frost, F.Go(id, answer)))
    case DklsGo(id, answer) => s.(dkls := T.Step(s.dkls, T.Go(id, answer)))
    case Tick(n) => s.(frost := F.Step(s.frost, F.Tick(n)), dkls := T.Step(s.dkls, T.Tick(n)))
  }

  function Run(s: State, acts: seq<Action>): State
    decreases acts
  {
    if acts == [] then s else Run(Step(s, acts[0]), acts[1..])
  }

  // ── Each engine, seen alone, runs its own machine ───────────────────

  /** What a step is to the FROST engine. */
  function FrostPart(s: State, a: Action): Option<F.Action> {
    match a
    case Dispatch(id) =>
      if id in s.calls && s.calls[id].at.Arrived? && Route(s, s.calls[id].call).Frost? && FrostRequest(s.calls[id].call).Some?
      then Some(F.Begin(id, FrostRequest(s.calls[id].call).value)) else None
    case FrostGo(id, answer) => Some(F.Go(id, answer))
    case Tick(n) => Some(F.Tick(n))
    case _ => None
  }

  function TaskPart(s: State, a: Action): Option<T.Action> {
    match a
    case Dispatch(id) =>
      if id in s.calls && s.calls[id].at.Arrived? && Route(s, s.calls[id].call).Dkls?
      then Some(T.Begin(id, TaskRequest(s.calls[id].call))) else None
    case DklsGo(id, answer) => Some(T.Go(id, answer))
    case Tick(n) => Some(T.Tick(n))
    case _ => None
  }

  function FrostParts(s: State, acts: seq<Action>): seq<F.Action>
    decreases acts
  {
    if acts == [] then [] else
      var p := FrostPart(s, acts[0]);
      (if p.Some? then [p.value] else []) + FrostParts(Step(s, acts[0]), acts[1..])
  }

  function TaskParts(s: State, acts: seq<Action>): seq<T.Action>
    decreases acts
  {
    if acts == [] then [] else
      var p := TaskPart(s, acts[0]);
      (if p.Some? then [p.value] else []) + TaskParts(Step(s, acts[0]), acts[1..])
  }

  lemma StepParts(s: State, a: Action)
    ensures var p := FrostPart(s, a); Step(s, a).frost == if p.Some? then F.Step(s.frost, p.value) else s.frost
    ensures var p := TaskPart(s, a); Step(s, a).dkls == if p.Some? then T.Step(s.dkls, p.value) else s.dkls
  {
    hide F.Section, T.Section;
  }

  /** So whatever holds of every run of an engine holds of it behind this API. */
  lemma {:induction false} Projects(s: State, acts: seq<Action>)
    ensures Run(s, acts).frost == F.Run(s.frost, FrostParts(s, acts))
    ensures Run(s, acts).dkls == T.Run(s.dkls, TaskParts(s, acts))
    decreases acts
  {
    if acts != [] {
      var s1, rest := Step(s, acts[0]), acts[1..];
      StepParts(s, acts[0]);
      Projects(s1, rest);
      var p, q := FrostPart(s, acts[0]), TaskPart(s, acts[0]);
      hide F.Step, T.Step;
      if p.Some? { assert ([p.value] + FrostParts(s1, rest))[1..] == FrostParts(s1, rest); }
      else { assert [] + FrostParts(s1, rest) == FrostParts(s1, rest); }
      if q.Some? { assert ([q.value] + TaskParts(s1, rest))[1..] == TaskParts(s1, rest); }
      else { assert [] + TaskParts(s1, rest) == TaskParts(s1, rest); }
    }
  }
}

/** The request/response matcher of `WebSocketMpcTransport` as an event-driven machine: every stretch of
    code between two `await`s is one event.  A completer is known by the `send` call that made it. */
module Matcher {
  import opened Wrappers

  datatype Id = Num(n: int) | Str(s: string)

  datatype Payload = NotJson | WithoutId | WithId(id: Id)

  /** How a `send` ends: with the raw text of a response, or with an exception. */
  datatype Outcome = Response(id: Id, text: string) | TimedOut | Disconnected | SinkFailed | ConnectFailed | BadPayload

  datatype Stage =
    | Opening          // this call makes the connection
    | WaitingConnect   // another call is making it
    | Connected        // past `_ensureConnected`, not yet registered
    | Waiting(id: Id)  // registered and sent
    | Done

  datatype Call = Call(payload: Payload, stage: Stage, outcomes: seq<Outcome>)

  /** Connections are numbered; `live` are those whose stream is still listened to. */
  datatype Link = Link(channel: Option<nat>, subscription: Option<nat>, connecting: bool, live: set<nat>, next: nat)

  datatype State = State(link: Link, pending: map<Id, nat>, calls: map<nat, Call>)

  const INIT := State(Link(None, None, false, {}, 0), map[], map[])

  datatype Event =
    | Send(call: nat, payload: Payload, factoryThrows: bool)
    | Handshake(opener: nat, ready: bool)
    | Register(reg: nat, sinkThrows: bool)
    | Timeout(late: nat)
    | Message(stream: nat, id: Option<Id>, text: string)
    | StreamEnds(ended: nat)
    | Close

  // ── Pieces ──────────────────────────────────────────────────────────

  function Complete(c: Call, o: Outcome): Call {
    Call(c.payload, Done, c.outcomes + [o])
  }

  function Finish(s: State, c: nat, o: Outcome): State
    requires c in s.calls
  {
    s.(calls := s.calls[c := Complete(s.calls[c], o)])
  }

  function At(s: State, c: nat, st: Stage): State
    requires c in s.calls
  {
    s.(calls := s.calls[c := s.calls[c].(stage := st)])
  }

  /** All calls waiting for the connection go on, or fail. */
  function Released(calls: map<nat, Call>, ok: bool): map<nat, Call> {
    map c | c in calls ::
      if calls[c].stage.WaitingConnect? then
        if ok then calls[c].(stage := Connected) else Complete(calls[c], ConnectFailed)
      else calls[c]
  }

  /** The calls whose completers are in the map end with an error, unless they have ended already. */
  function Interrupted(calls: map<nat, Call>, who: set<nat>): map<nat, Call> {
    map c | c in calls :: if c in who && !calls[c].stage.Done? then Complete(calls[c], Disconnected) else calls[c]
  }

  /** `_disconnect`: only the current subscription is cancelled. */
  function Disconnect(s: State): State {
    var l := s.link;
    State(l.(channel := None, subscription := None,
        live := if l.subscription.Some? then l.live - {l.subscription.value} else l.live),
          map[], Interrupted(s.calls, s.pending.Values))
  }

  function ConnectFails(s: State, c: nat): State
    requires c in s.calls
  {
    var s1 := Finish(s, c, ConnectFailed);
    State(s.link.(channel := None, connecting := false), s.pending, Released(s1.calls, false))
  }

  // ── Events ──────────────────────────────────────────────────────────

  /** `_ensureConnected` up to its first wait.  The channel is set before the handshake is over. */
  function Enter(s: State, c: nat, payload: Payload, factoryThrows: bool): State
    requires c !in s.calls
  {
    var l := s.link;
    if l.channel.Some? then s.(calls := s.calls[c := Call(payload, Connected, [])])
    else if l.connecting then s.(calls := s.calls[c := Call(payload, WaitingConnect, [])])
    else
      var s1 := s.(calls := s.calls[c := Call(payload, Opening, [])]);
      if factoryThrows then ConnectFails(s1, c)
      else s1.(link := l.(channel := Some(l.next), connecting := true, next := l.next + 1))
  }

  /** The end of the handshake.  If the channel has been dropped meanwhile, connecting has failed. */
  function Shake(s: State, c: nat, ready: bool): State
    requires c in s.calls
  {
    if !ready || s.link.channel.None? then ConnectFails(s, c)
    else
      var l := s.link;
      var s1 := At(s, c, Connected);
      State(l.(subscription := l.channel, connecting := false, live := l.live + {l.channel.value}), s.pending,
          Released(s1.calls, true))
  }

  /** Register the completer and write to the sink; on a failure take it out again. */
  function Registered(s: State, c: nat, sinkThrows: bool): State
    requires c in s.calls
  {
    match s.calls[c].payload
    case WithId(id) =>
      if s.link.channel.None? || sinkThrows then
        var s1 := Finish(s, c, SinkFailed);
        State(s.link.(channel := None), s.pending - {id}, s1.calls)
      else At(s, c, Waiting(id)).(pending := s.pending[id := c])
    case _ => Finish(s, c, BadPayload)
  }

  function Delivered(s: State, id: Id, text: string): State {
    if id !in s.pending then s
    else
      var s1 := s.(pending := s.pending - {id});
      if s.pending[id] in s.calls then Finish(s1, s.pending[id], Response(id, text)) else s1
  }

  function Step(s: State, e: Event): State {
    match e
    case Send(c, payload, factoryThrows) => if c in s.calls then s else Enter(s, c, payload, factoryThrows)
    case Handshake(c, ready) => if c in s.calls && s.calls[c].stage.Opening? then Shake(s, c, ready) else s
    case Register(c, sinkThrows) => if c in s.calls && s.calls[c].stage.Connected? then Registered(s, c, sinkThrows) else s
    case Timeout(c) =>
      if c in s.calls && s.calls[c].stage.Waiting? then
        Finish(s, c, TimedOut).(pending := s.pending - {s.calls[c].stage.id})
      else s
    case Message(stream, id, text) => if stream in s.link.live && id.Some? then Delivered(s, id.value, text) else s
    case StreamEnds(stream) => if stream in s.link.live then Disconnect(s) else s
    case Close => Disconnect(s)
  }

  function Run(s: State, events: seq<Event>): State
    decreases events
  {
    if events == [] then s else Run(Step(s, events[0]), events[1..])
  }

  // ── Every call ends at most once ────────────────────────────────────

  predicate CallOk(c: Call) {
    && |c.outcomes| == (if c.stage.Done? then 1 else 0)
    && (c.stage.Waiting? ==> c.payload == WithId(c.stage.id))
    && (c.outcomes != [] && c.outcomes[0].Response? ==> c.payload == WithId(c.outcomes[0].id))
  }

  /** Completers in the map are those of waiting calls, under their own ids. */
  ghost predicate Inv(s: State) {
    && (forall c :: c in s.calls ==> CallOk(s.calls[c]))
    && (forall i :: i in s.pending ==> s.pending[i] in s.calls && s.calls[s.pending[i]].stage == Waiting(i))
  }

  lemma InterruptedOk(s: State)
    requires Inv(s)
    ensures Inv(Disconnect(s))
  {
    forall c | c in s.calls ensures CallOk(Disconnect(s).calls[c]) {
      assert CallOk(s.calls[c]);
    }
  }

  /** Waiting calls are not concerned by the making of a connection. */
  lemma FailsOk(s: State, c: nat)
    requires Inv(s) && c in s.calls && s.calls[c].stage.Opening?
    ensures Inv(ConnectFails(s, c))
  {
    var t := ConnectFails(s, c);
    forall d | d in t.calls ensures CallOk(t.calls[d]) { assert CallOk(s.calls[d]); }
  }

  lemma NewCallOk(s: State, c: nat, payload: Payload, st: Stage)
    requires Inv(s) && c !in s.calls && !st.Waiting? && !st.Done?
    ensures Inv(s.(calls := s.calls[c := Call(payload, st, [])]))
  {
  }

  lemma EnterOk(s: State, c: nat, payload: Payload, factoryThrows: bool)
    requires Inv(s) && c !in s.calls
    ensures Inv(Enter(s, c, payload, factoryThrows))
  {
    var s1 := s.(calls := s.calls[c := Call(payload, Opening, [])]);
    NewCallOk(s, c, payload, Opening);
    NewCallOk(s, c, payload, Connected);
    NewCallOk(s, c, payload, WaitingConnect);
    FailsOk(s1, c);
    hide ConnectFails, CallOk;
  }

  lemma ShakeOk(s: State, c: nat, ready: bool)
    requires Inv(s) && c in s.calls && s.calls[c].stage.Opening?
    ensures Inv(Shake(s, c, ready))
  {
    FailsOk(s, c);
    var t := Shake(s, c, ready);
    if ready && s.link.channel.Some? {
      forall d | d in t.calls ensures CallOk(t.calls[d]) { assert CallOk(s.calls[d]); }
    }
  }

  lemma RegisteredOk(s: State, c: nat, sinkThrows: bool)
    requires Inv(s) && c in s.calls && s.calls[c].stage.Connected?
    ensures Inv(Registered(s, c, sinkThrows))
  {
    var t := Registered(s, c, sinkThrows);
    assert CallOk(s.calls[c]) && CallOk(t.calls[c]);
    forall d | d in t.calls ensures CallOk(t.calls[d]) {
      if d != c { assert CallOk(s.calls[d]); }
    }
    hide CallOk;
  }

  lemma TimeoutOk(s: State, c: nat)
    requires Inv(s) && c in s.calls && s.calls[c].stage.Waiting?
    ensures Inv(Step(s, Timeout(c)))
  {
    assert CallOk(s.calls[c]);
  }

  lemma DeliveredOk(s: State, id: Id, text: string)
    requires Inv(s)
    ensures Inv(Delivered(s, id, text))
  {
    if id in s.pending { assert CallOk(s.calls[s.pending[id]]); }
  }

  lemma InvStep(s: State, e: Event)
    requires Inv(s)
    ensures Inv(Step(s, e))
  {
    hide Inv;
    match e
    case Send(c, payload, factoryThrows) => if c !in s.calls { EnterOk(s, c, payload, factoryThrows); }
    case Handshake(c, ready) => if c in s.calls && s.calls[c].stage.Opening? { ShakeOk(s, c, ready); }
    case Register(c, sinkThrows) => if c in s.calls && s.calls[c].stage.Connected? { RegisteredOk(s, c, sinkThrows); }
    case Timeout(c) => if c in s.calls && s.calls[c].stage.Waiting? { TimeoutOk(s, c); }
    case Message(_, id, text) => if id.Some? { DeliveredOk(s, id.value, text); }
    case StreamEnds(_) => InterruptedOk(s);
    case Close => InterruptedOk(s);
  }

  lemma {:induction false} InvRun(s: State, events: seq<Event>)
    requires Inv(s)
    ensures Inv(Run(s, events))
    decreases events
  {
    if events != [] {
      InvStep(s, events[0]);
      InvRun(Step(s, events[0]), events[1..]);
    }
  }

  /** Under any order of events, with or without repeated ids: a call has no outcome until it is done and
      then exactly one, and a response outcome is to its own id. */
  lemma OneOutcome(events: seq<Event>, c: nat)
    requires c in Run(INIT, events).calls
    ensures var call := Run(INIT, events).calls[c];
            && (if call.stage.Done? then |call.outcomes| == 1 else call.outcomes == [])
            && (call.stage.Done? && call.outcomes[0].Response? ==> call.payload == WithId(call.outcomes[0].id))
  {
    InvRun(INIT, events);
  }

  /** No completer in the map has been completed. */
  lemma MapHoldsOpenCompleters(events: seq<Event>, i: Id)
    requires i in Run(INIT, events).pending
    ensures var s := Run(INIT, events);
            s.pending[i] in s.calls && s.calls[s.pending[i]].stage == Waiting(i) && s.calls[s.pending[i]].outcomes == []
  {
    InvRun(INIT, events);
  }

  // ── With distinct ids in flight, every waiting call is in the map ───

  ghost predicate AllMapped(s: State) {
    forall c :: c in s.calls && s.calls[c].stage.Waiting? ==>
      s.calls[c].stage.id in s.pending && s.pending[s.calls[c].stage.id] == c
  }

  /** The event does not register an id that is in the map. */
  predicate Distinct(s: State, e: Event) {
    e.Register? && e.reg in s.calls && s.calls[e.reg].stage.Connected? && s.calls[e.reg].payload.WithId? ==>
      s.calls[e.reg].payload.id !in s.pending
  }

  predicate AllDistinct(s: State, events: seq<Event>)
    decreases events
  {
    events != [] ==> Distinct(s, events[0]) && AllDistinct(Step(s, events[0]), events[1..])
  }

  lemma EnterMapped(s: State, c: nat, payload: Payload, factoryThrows: bool)
    requires Inv(s) && AllMapped(s) && c !in s.calls
    ensures AllMapped(Enter(s, c, payload, factoryThrows))
  {
  }

  lemma ShakeMapped(s: State, c: nat, ready: bool)
    requires Inv(s) && AllMapped(s) && c in s.calls && s.calls[c].stage.Opening?
    ensures AllMapped(Shake(s, c, ready))
  {
  }

  lemma RegisteredMapped(s: State, c: nat, sinkThrows: bool)
    requires Inv(s) && AllMapped(s) && c in s.calls && s.calls[c].stage.Connected?
    ensures AllMapped(Registered(s, c, sinkThrows)) <==> (s.calls[c].payload.WithId? ==> s.calls[c].payload.id !in s.pending)
  {
    var t := Registered(s, c, sinkThrows);
    if s.calls[c].payload.WithId? {
      var id := s.calls[c].payload.id;
      if id in s.pending {
        var d := s.pending[id];
        assert d != c && t.calls[d] == s.calls[d];
      }
    }
  }

  lemma DeliveredMapped(s: State, id: Id, text: string)
    requires Inv(s) && AllMapped(s)
    ensures AllMapped(Delivered(s, id, text))
  {
  }

  lemma TimeoutMapped(s: State, c: nat)
    requires Inv(s) && AllMapped(s) && c in s.calls && s.calls[c].stage.Waiting?
    ensures AllMapped(Step(s, Timeout(c)))
  {
    assert s.pending[s.calls[c].stage.id] == c;
  }

  lemma DisconnectMapped(s: State)
    requires Inv(s) && AllMapped(s)
    ensures AllMapped(Disconnect(s))
  {
    var t := Disconnect(s);
    forall c | c in t.calls ensures !t.calls[c].stage.Waiting? {
      if s.calls[c].stage.Waiting? { assert s.pending[s.calls[c].stage.id] == c; }
    }
  }

  /** One step keeps it exactly if it does not register an id that is in the map. */
  lemma MappedStep(s: State, e: Event)
    requires Inv(s) && AllMapped(s)
    ensures AllMapped(Step(s, e)) <==> Distinct(s, e)
  {
    hide Inv, AllMapped;
    match e
    case Send(c, payload, factoryThrows) => if c !in s.calls { EnterMapped(s, c, payload, factoryThrows); }
    case Handshake(c, ready) => if c in s.calls && s.calls[c].stage.Opening? { ShakeMapped(s, c, ready); }
    case Register(c, sinkThrows) => if c in s.calls && s.calls[c].stage.Connected? { RegisteredMapped(s, c, sinkThrows); }
    case Timeout(c) => if c in s.calls && s.calls[c].stage.Waiting? { TimeoutMapped(s, c); }
    case Message(_, id, text) => if id.Some? { DeliveredMapped(s, id.value, text); }
    case StreamEnds(_) => DisconnectMapped(s);
    case Close => DisconnectMapped(s);
  }

  lemma {:induction false} MappedRun(s: State, events: seq<Event>)
    requires Inv(s) && AllMapped(s) && AllDistinct(s, events)
    ensures Inv(Run(s, events)) && AllMapped(Run(s, events))
    decreases events
  {
    if events != [] {
      InvStep(s, events[0]);
      MappedStep(s, events[0]);
      MappedRun(Step(s, events[0]), events[1..]);
    }
  }

  /** So with distinct ids in flight every registered call is waiting in the map under its id, or done
      with its one outcome; and a lost or closed connection leaves no call waiting. */
  lemma WaitingOrDone(events: seq<Event>, c: nat)
    requires AllDistinct(INIT, events) && c in Run(INIT, events).calls && Run(INIT, events).calls[c].stage.Waiting?
    ensures var s := Run(INIT, events);
            s.calls[c].payload.WithId? && s.calls[c].payload.id in s.pending && s.pending[s.calls[c].payload.id] == c
  {
    MappedRun(INIT, events);
  }

  lemma DisconnectLeavesNone(events: seq<Event>, c: nat)
    requires AllDistinct(INIT, events) && c in Run(INIT, events).calls
    ensures var s, t := Run(INIT, events), Disconnect(Run(INIT, events));
            && t.pending == map[] && c in t.calls && !t.calls[c].stage.Waiting?
            && (s.calls[c].stage.Waiting? ==> t.calls[c].outcomes == [Disconnected])
  {
    MappedRun(INIT, events);
    var s := Run(INIT, events);
    if s.calls[c].stage.Waiting? { assert s.pending[s.calls[c].stage.id] == c; }
  }

  // ── What repeated ids and failed writes do ──────────────────────────

  /** Two requests in flight with one id: the first never gets its answer, and the closing of the
      connection does not reach it either. */
  lemma RepeatedIdIsLost(id: Id, text: string)
    ensures var s := Run(INIT, [Send(0, WithId(id), false), Handshake(0, true), Register(0, false),
                                Send(1, WithId(id), false), Register(1, false), Message(0, Some(id), text), Close]);
            && 0 in s.calls && 1 in s.calls && s.calls[0].stage == Waiting(id) && s.calls[0].outcomes == []
            && s.calls[1].outcomes == [Response(id, text)] && s.pending == map[]
  {
    var events := [Send(0, WithId(id), false), Handshake(0, true), Register(0, false),
                   Send(1, WithId(id), false), Register(1, false), Message(0, Some(id), text), Close];
    var l := Link(Some(0), Some(0), false, {0}, 1);
    var open := Call(WithId(id), Waiting(id), []);
    var answered := Call(WithId(id), Done, [Response(id, text)]);
    TwoRegistered(id);
    AnsweredThenClosed(id, text);
    hide Step, Run;
    AllFurther(events);
    assert Run(INIT, events) ==
      State(l.(channel := None, subscription := None, live := {}), map[], map[0 := open, 1 := answered]);
  }

  lemma AnsweredThenClosed(id: Id, text: string)
    ensures var open := Call(WithId(id), Waiting(id), []);
            Step(Step(State(Link(Some(0), Some(0), false, {0}, 1), map[id := 1], map[0 := open, 1 := open]),
                Message(0, Some(id), text)), Close)
            == State(Link(None, None, false, {}, 1), map[], map[0 := open, 1 := Call(WithId(id), Done, [Response(id, text)])])
  {
    var l := Link(Some(0), Some(0), false, {0}, 1);
    var open := Call(WithId(id), Waiting(id), []);
    var answered := Call(WithId(id), Done, [Response(id, text)]);
    var s5 := State(l, map[id := 1], map[0 := open, 1 := open]);
    var s6 := State(l, map[], map[0 := open, 1 := answered]);
    assert s5.pending - {id} == map[] && s5.calls[1 := answered] == s6.calls && Complete(open, Response(id, text)) == answered;
    assert Step(s5, Message(0, Some(id), text)) == s6;
    assert Interrupted(s6.calls, s6.pending.Values) == s6.calls && l.live - {0} == {};
  }

  lemma TwoRegistered(id: Id)
    ensures var open := Call(WithId(id), Waiting(id), []);
            Step(Step(Step(Step(Step(INIT, Send(0, WithId(id), false)), Handshake(0, true)), Register(0, false)),
                Send(1, WithId(id), false)), Register(1, false))
            == State(Link(Some(0), Some(0), false, {0}, 1), map[id := 1], map[0 := open, 1 := open])
  {
    var l := Link(Some(0), Some(0), false, {0}, 1);
    var open := Call(WithId(id), Waiting(id), []);
    FirstCall(WithId(id));
    var s3 := State(l, map[id := 0], map[0 := open]);
    assert Step(State(l, map[], map[0 := Call(WithId(id), Connected, [])]), Register(0, false)) == s3;
    var s4 := State(l, map[id := 0], map[0 := open, 1 := Call(WithId(id), Connected, [])]);
    assert Step(s3, Send(1, WithId(id), false)) == s4;
  }

  /** The first call of all, connected. */
  lemma FirstCall(p: Payload)
    ensures Step(Step(INIT, Send(0, p, false)), Handshake(0, true)) ==
            State(Link(Some(0), Some(0), false, {0}, 1), map[], map[0 := Call(p, Connected, [])])
  {
    var s1 := State(Link(Some(0), None, true, {}, 1), map[], map[0 := Call(p, Opening, [])]);
    assert Step(INIT, Send(0, p, false)) == s1;
  }

  lemma AllFurther(events: seq<Event>)
    requires |events| == 7
    ensures Run(INIT, events[..6]) == Step(Step(Step(Step(Step(Step(INIT, events[0]), events[1]), events[2]),
        events[3]), events[4]), events[5])
    ensures Run(INIT, events) == Step(Run(INIT, events[..6]), events[6])
  {
    hide Step;
    assert events[..7] == events && events[..0] == [] && Run(INIT, []) == INIT;
    hide Run;
    Further(events, 0); Further(events, 1); Further(events, 2);
    Further(events, 3); Further(events, 4); Further(events, 5);
    Further(events, 6);
  }

  /** A run, one event further. */
  lemma Further(events: seq<Event>, n: nat)
    requires n < |events|
    ensures Run(INIT, events[..n + 1]) == Step(Run(INIT, events[..n]), events[n])
  {
    AllButLast(INIT, events[..n + 1]);
    assert events[..n + 1][..n] == events[..n];
  }

  lemma {:induction false} AllButLast(s: State, events: seq<Event>)
    requires events != []
    ensures Run(s, events) == Step(Run(s, events[..|events| - 1]), events[|events| - 1])
    decreases |events|
  {
    if |events| > 1 {
      AllButLast(Step(s, events[0]), events[1..]);
      assert events[1..][..|events| - 2] == events[..|events| - 1][1..];
    } else {
      assert events[1..] == [] && events[..0] == [];
    }
  }

  /** At most one call is making a connection, and only while the flag is up. */
  ghost predicate OpenerOk(s: State) {
    forall c, d :: c in s.calls && d in s.calls && s.calls[c].stage.Opening? && s.calls[d].stage.Opening? ==>
      c == d && s.link.connecting
  }

  /** Only the stream of the current channel is listened to. */
  ghost predicate StreamsCurrent(s: State) {
    && s.link.live == (if s.link.subscription.Some? then {s.link.subscription.value} else {})
    && (s.link.subscription.Some? ==> s.link.channel == s.link.subscription && !s.link.connecting)
  }

  /** Writing to the sink fails under a subscription, which stays. */
  predicate LeavesStream(s: State, e: Event) {
    e.Register? && e.sinkThrows && e.reg in s.calls && s.calls[e.reg].stage.Connected? && s.calls[e.reg].payload.WithId?
    && s.link.subscription.Some?
  }

  /** The events after connecting leave the openers and the flag alone. */
  lemma OpenersStay(s: State, e: Event)
    requires !e.Send? && !e.Handshake?
    ensures var t := Step(s, e);
            t.link.connecting == s.link.connecting
            && forall c :: c in t.calls && t.calls[c].stage.Opening? ==> c in s.calls && s.calls[c].stage.Opening?
  {
  }

  lemma EnterOpener(s: State, c: nat, payload: Payload, factoryThrows: bool)
    requires OpenerOk(s) && c !in s.calls
    ensures OpenerOk(Enter(s, c, payload, factoryThrows))
  {
  }

  lemma ShakeOpener(s: State, c: nat, ready: bool)
    requires OpenerOk(s) && c in s.calls && s.calls[c].stage.Opening?
    ensures OpenerOk(Shake(s, c, ready))
  {
  }

  lemma OpenerStep(s: State, e: Event)
    requires OpenerOk(s)
    ensures OpenerOk(Step(s, e))
  {
    match e
    case Send(c, payload, factoryThrows) => if c !in s.calls { EnterOpener(s, c, payload, factoryThrows); }
    case Handshake(c, ready) => if c in s.calls && s.calls[c].stage.Opening? { ShakeOpener(s, c, ready); }
    case _ =>
      OpenersStay(s, e);
      hide Step;
  }

  /** Exactly a failed write leaves a stream of an abandoned channel listened to. */
  lemma StreamsStep(s: State, e: Event)
    requires OpenerOk(s) && StreamsCurrent(s)
    ensures StreamsCurrent(Step(s, e)) <==> !LeavesStream(s, e)
  {
  }

  /** In these events no write fails under a subscription. */
  predicate NoStreamLeft(s: State, events: seq<Event>)
    decreases events
  {
    events != [] ==> !LeavesStream(s, events[0]) && NoStreamLeft(Step(s, events[0]), events[1..])
  }

  lemma {:induction false} StreamsRun(s: State, events: seq<Event>)
    requires OpenerOk(s) && StreamsCurrent(s) && NoStreamLeft(s, events)
    ensures OpenerOk(Run(s, events)) && StreamsCurrent(Run(s, events))
    decreases events
  {
    if events != [] {
      OpenerStep(s, events[0]);
      StreamsStep(s, events[0]);
      StreamsRun(Step(s, events[0]), events[1..]);
    }
  }

  /** So over every run in which no write fails, the only stream that can deliver messages, or end, is that
      of the current channel. */
  lemma OnlyCurrentStream(events: seq<Event>, stream: nat)
    requires NoStreamLeft(INIT, events) && stream in Run(INIT, events).link.live
    ensures Run(INIT, events).link.channel == Some(stream)
  {
    StreamsRun(INIT, events);
  }

  /** And when that stream ends, it takes down the connection made since, with its requests. */
  lemma StaleStreamEndsNewConnection(first: Id, second: Id)
    ensures var events := [Send(0, WithId(first), false), Handshake(0, true), Register(0, true),
                           Send(1, WithId(second), false), Handshake(1, true), Register(1, false), StreamEnds(0)];
            var s, t := Run(INIT, events[..6]), Run(INIT, events);
            && s.link.channel == s.link.subscription == Some(1) && 1 in s.calls && s.calls[1].stage == Waiting(second)
            && t.link.channel == None && 1 in t.calls && t.calls[1].outcomes == [Disconnected]
  {
    var events := [Send(0, WithId(first), false), Handshake(0, true), Register(0, true),
                   Send(1, WithId(second), false), Handshake(1, true), Register(1, false), StreamEnds(0)];
    var failed, open := Call(WithId(first), Done, [SinkFailed]), Call(WithId(second), Waiting(second), []);
    FailedAndReconnected(first, second);
    var s6 := State(Link(Some(1), Some(1), false, {0, 1}, 2), map[second := 1], map[0 := failed, 1 := open]);
    assert s6.pending[second] == 1 && 1 in s6.pending.Values;
    var s7 := Step(s6, events[6]);
    assert s7.link.channel == None && s7.calls[1] == Complete(open, Disconnected);
    hide Step, Run;
    AllFurther(events);
    assert Run(INIT, events[..6]) == s6;
  }

  lemma FailedAndReconnected(first: Id, second: Id)
    ensures var failed, open := Call(WithId(first), Done, [SinkFailed]), Call(WithId(second), Waiting(second), []);
            Step(Step(Step(Step(Step(Step(INIT, Send(0, WithId(first), false)), Handshake(0, true)), Register(0, true)),
                           Send(1, WithId(second), false)), Handshake(1, true)), Register(1, false))
            == State(Link(Some(1), Some(1), false, {0, 1}, 2), map[second := 1], map[0 := failed, 1 := open])
  {
    var failed, open := Call(WithId(first), Done, [SinkFailed]), Call(WithId(second), Waiting(second), []);
    FirstCall(WithId(first));
    var c := Call(WithId(first), Connected, []);
    var s3 := State(Link(None, Some(0), false, {0}, 1), map[], map[0 := failed]);
    assert s3.pending - {first} == s3.pending && Complete(c, SinkFailed) == failed && map[0 := c][0 := failed] == s3.calls;
    assert Step(State(Link(Some(0), Some(0), false, {0}, 1), map[], map[0 := c]), Register(0, true)) == s3;
    var s4 := State(Link(Some(1), Some(0), true, {0}, 2), map[], map[0 := failed, 1 := Call(WithId(second), Opening, [])]);
    assert Step(s3, Send(1, WithId(second), false)) == s4;
    var s5 := State(Link(Some(1), Some(1), false, {0, 1}, 2), map[], map[0 := failed, 1 := Call(WithId(second), Connected, [])]);
    assert Released(s4.calls[1 := Call(WithId(second), Connected, [])], true) == s5.calls && {0} + {1} == {0, 1};
    assert Step(s4, Handshake(1, true)) == s5;
  }
}

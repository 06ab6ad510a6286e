/** The batching relay between the blocking FFI calls and the asynchronous protocol task.

    A protocol task reads from a bounded input queue and writes to a bounded output queue.
    A caller injects server messages and then runs `collect_batch`, which returns a batch of
    client messages.  The end of a batch is signalled through a one-permit `Notify`.

    Every atomic action of the three actors is one `Action`; `Step` is total and leaves the
    state alone when the action is not enabled, so a run is any sequence of actions. */
module Relay {
  import opened Wrappers

  type Message = Bytes

  const IN_CAPACITY: nat := 16
  const OUT_CAPACITY: nat := 64

  /** `Parking`: the last poll of the input found nothing, `notify_one` has not been called yet.
      `Parked`: it has been called, and the task sleeps until it is polled again. */
  datatype Task = Running | Parking | Parked | Finished

  /** The `Notified` future of the collector.  `Delivered`: a notification was handed to the
      registered waiter and not observed yet; `Ready`: a permit or a delivery has been observed. */
  datatype Future = NoFuture | Waiting | Delivered | Ready

  datatype Collector = Idle | AwaitFirst | PollNotified | PollRecv | Drain(done: bool)

  /** The two queues and the protocol task between them; and, as history, what was put into the
      input queue and what the task has read from it. */
  datatype Link = Link(inq: seq<Message>, inOpen: bool, outq: seq<Message>, rxAlive: bool, task: Task,
                       injected: seq<Message>, read: seq<Message>)

  /** The `Notify` with its permit, and the `collect_batch` call in progress. */
  datatype Call = Call(permit: bool, future: Future, collector: Collector, batch: seq<Message>)

  /** History: what `start_send` accepted and what was returned; and, for the latest call, whether
      it took over an old permit, how much had been sent at the latest `notify_one` since it
      started, and the flag it returned. */
  datatype Log = Log(sent: seq<Message>, returned: seq<seq<Message>>, stale: bool, noted: Option<nat>, lastDone: bool)

  datatype State = State(link: Link, call: Call, log: Log)

  datatype Action =
    | Send(m: Message) | Poll | Notify | Wake | Finish          // protocol task
    | Inject(im: Message) | CloseInput | DropReceiver           // injector, session owner
    | Enter | Collect                                           // collector

  const INIT := State(Link([], true, [], true, Running, [], []), Call(false, NoFuture, Idle, []), Log([], [], false, None, false))

  function Step(s: State, a: Action): State {
    match a
    case Send(m) => StepSend(s, m)
    case Notify => StepNotify(s)
    case Enter => StepEnter(s)
    case Collect => StepCollect(s)
    case DropReceiver => if s.call.collector.Idle? then s.(link := s.link.(rxAlive := false, outq := [])) else s
    case _ => s.(link := StepLink(s.link, a))
  }

  /** Actions that only concern the input queue and the task. */
  function StepLink(l: Link, a: Action): Link {
    match a
    case Poll =>
      if !l.task.Running? then l
      else if l.inq != [] then l.(inq := l.inq[1..], read := l.read + [l.inq[0]])
      else if l.inOpen then l.(task := Parking)
      else l
    case Wake => if l.task.Parked? then l.(task := Running) else l
    case Finish => if l.task.Running? || l.task.Parked? then l.(task := Finished, inq := []) else l
    case Inject(m) =>
      if l.inOpen && !l.task.Finished? && |l.inq| < IN_CAPACITY then
        l.(inq := l.inq + [m], injected := l.injected + [m])
      else l
    case CloseInput => l.(inOpen := false)
    case _ => l
  }

  /** `try_send` on the output queue: refused when the queue is full or its receiver is gone. */
  predicate Accepts(l: Link) {
    l.task.Running? && l.rxAlive && |l.outq| < OUT_CAPACITY
  }

  function StepSend(s: State, m: Message): State {
    if Accepts(s.link) then State(s.link.(outq := s.link.outq + [m]), s.call, s.log.(sent := s.log.sent + [m])) else s
  }

  /** `notify_one`: hand the notification to the registered waiter, else store the permit. */
  function NotifyOne(c: Call): Call {
    if c.future.Waiting? then c.(future := Delivered) else c.(permit := true)
  }

  function StepNotify(s: State): State {
    if s.link.task.Parking? then
      State(s.link.(task := Parked), NotifyOne(s.call), s.log.(noted := Some(|s.log.sent|)))
    else s
  }

  /** Entry of `collect_batch`: create the future and enable it, which takes a stored permit. */
  function StepEnter(s: State): State {
    if !s.call.collector.Idle? || !s.link.rxAlive then s
    else
      var p := s.call.permit;
      State(s.link, Call(false, if p then Ready else Waiting, AwaitFirst, []), s.log.(stale := p, noted := None))
  }

  predicate FutureReady(c: Call) {
    c.future.Delivered? || c.future.Ready?
  }

  /** Leaving `collect_batch` drops the future, which puts an unobserved notification back. */
  function Leave(c: Call): Call {
    Call(c.permit || c.future.Delivered?, NoFuture, Idle, [])
  }

  /** Move one message from the output queue to the batch. */
  function TakeOne(s: State, next: Collector): State
    requires s.link.outq != []
  {
    State(s.link.(outq := s.link.outq[1..]), s.call.(batch := s.call.batch + [s.link.outq[0]], collector := next), s.log)
  }

  /** One atomic action of `collect_batch`; a pending poll changes nothing but the poll order. */
  function StepCollect(s: State): State {
    var c, empty, closed := s.call, s.link.outq == [], s.link.task.Finished?;
    match c.collector
    case Idle => s
    case AwaitFirst =>
      if !empty then TakeOne(s, PollNotified)
      else if closed then State(s.link, Leave(c), s.log.(lastDone := true))
      else s
    case PollNotified =>
      s.(call := if FutureReady(c) then c.(future := Ready, collector := Drain(false)) else c.(collector := PollRecv))
    case PollRecv =>
      if !empty then TakeOne(s, PollNotified)
      else s.(call := c.(collector := if closed then Drain(true) else PollNotified))
    case Drain(done) =>
      if !empty then TakeOne(s, c.collector)
      else State(s.link, Leave(c), s.log.(returned := s.log.returned + [c.batch], lastDone := done))
  }

  function Run(s: State, acts: seq<Action>): State
    decreases acts
  {
    if acts == [] then s else Run(Step(s, acts[0]), acts[1..])
  }

  lemma {:induction false} RunAppend(s: State, a: seq<Action>, b: seq<Action>)
    ensures Run(s, a + b) == Run(Run(s, a), b)
    decreases a
  {
    if a == [] {
      assert a + b == b;
    } else {
      assert (a + b)[0] == a[0] && (a + b)[1..] == a[1..] + b;
      RunAppend(Step(s, a[0]), a[1..], b);
    }
  }

  function Flatten(batches: seq<seq<Message>>): seq<Message> {
    if batches == [] then [] else Flatten(batches[..|batches| - 1]) + batches[|batches| - 1]
  }

  // ── Invariants of every run ─────────────────────────────────────────

  /** Nothing can move the task: it sleeps on an empty, open input queue. */
  predicate Asleep(l: Link) {
    l.task.Parked? && l.inq == [] && l.inOpen
  }

  /** Nothing is lost, duplicated or reordered, and the queues stay within their capacity. */
  ghost predicate Conserves(s: State) {
    && |s.link.inq| <= IN_CAPACITY && |s.link.outq| <= OUT_CAPACITY
    && (!s.link.task.Finished? ==> s.link.injected == s.link.read + s.link.inq)
    && (s.link.rxAlive ==> s.log.sent == Flatten(s.log.returned) + s.call.batch + s.link.outq)
    && (!s.link.rxAlive ==> s.link.outq == [])
  }

  /** The future exists exactly while a call is in progress. */
  ghost predicate Shape(s: State) {
    && (s.call.collector.Idle? <==> s.call.future.NoFuture?)
    && (!s.call.collector.Idle? ==> s.link.rxAlive)
    && (s.call.collector.Idle? || s.call.collector.AwaitFirst? <==> s.call.batch == [])
  }

  /** A sleeping task has left a trace that a call in progress, or the next one, will see. */
  ghost predicate NoLostNotification(s: State) {
    Asleep(s.link) ==>
      match s.call.collector
      case Idle => s.link.outq != [] ==> s.call.permit
      case AwaitFirst => s.link.outq != [] ==> FutureReady(s.call)
      case PollNotified => FutureReady(s.call)
      case PollRecv => FutureReady(s.call)
      case Drain(_) => true
  }

  /** Why the current batch may end: an old permit, or a notification raised during this call. */
  ghost predicate EndingExplained(s: State) {
    && (FutureReady(s.call) ==> s.log.stale || s.log.noted.Some?)
    && (s.call.collector.Drain? && !s.call.collector.done ==> FutureReady(s.call))
    && (s.log.noted.Some? ==> s.log.noted.value <= |s.log.sent|)
  }

  ghost predicate Inv(s: State) {
    Conserves(s) && Shape(s) && NoLostNotification(s) && EndingExplained(s)
  }

  lemma MoveOne(a: seq<Message>, b: seq<Message>, q: seq<Message>)
    requires q != []
    ensures a + (b + [q[0]]) + q[1..] == a + b + q
  {
    assert q == [q[0]] + q[1..];
  }

  lemma FlattenPush(batches: seq<seq<Message>>, b: seq<Message>)
    ensures Flatten(batches + [b]) == Flatten(batches) + b
  {
    assert (batches + [b])[..|batches|] == batches;
  }

  lemma ConservesCollect(s: State)
    requires Conserves(s) && Shape(s)
    ensures Conserves(StepCollect(s))
  {
    hide Flatten;
    var q := s.link.outq;
    if q != [] {
      MoveOne(Flatten(s.log.returned), s.call.batch, q);
    } else if s.call.collector.Drain? {
      FlattenPush(s.log.returned, s.call.batch);
      assert Flatten(s.log.returned) + s.call.batch + q == Flatten(s.log.returned + [s.call.batch]) + [] + q;
    }
  }

  lemma ConservesStep(s: State, a: Action)
    requires Conserves(s) && Shape(s)
    ensures Conserves(Step(s, a))
  {
    if a.Collect? {
      ConservesCollect(s);
    } else if a.Send? && Accepts(s.link) {
      assert s.log.sent + [a.m] == Flatten(s.log.returned) + s.call.batch + (s.link.outq + [a.m]);
    }
  }

  lemma ShapeStep(s: State, a: Action)
    requires Shape(s)
    ensures Shape(Step(s, a))
  {
  }

  lemma NoLostNotificationStep(s: State, a: Action)
    requires Shape(s) && NoLostNotification(s)
    ensures NoLostNotification(Step(s, a))
  {
  }

  lemma EndingExplainedStep(s: State, a: Action)
    requires Shape(s) && EndingExplained(s)
    ensures EndingExplained(Step(s, a))
  {
  }

  lemma InvStep(s: State, a: Action)
    requires Inv(s)
    ensures Inv(Step(s, a))
  {
    ConservesStep(s, a);
    ShapeStep(s, a);
    NoLostNotificationStep(s, a);
    EndingExplainedStep(s, a);
  }

  lemma {:induction false} InvRun(s: State, acts: seq<Action>)
    requires Inv(s)
    ensures Inv(Run(s, acts))
    decreases acts
  {
    if acts != [] {
      InvStep(s, acts[0]);
      InvRun(Step(s, acts[0]), acts[1..]);
    }
  }

  // ── What every run guarantees ───────────────────────────────────────

  /** No lost wake-up: past its first message, a `collect_batch` that finds the task asleep has a
      notification to observe; so there is always something for it or for the task to do. */
  lemma NoLostWakeup(acts: seq<Action>)
    ensures var s := Run(INIT, acts);
            s.call.collector.PollNotified? || s.call.collector.PollRecv? ==>
              !Asleep(s.link) || FutureReady(s.call)
  {
    InvRun(INIT, acts);
  }

  /** Between calls, a sleeping task with undelivered output has left a permit behind. */
  lemma SleepingTaskLeavesPermit(acts: seq<Action>)
    ensures var s := Run(INIT, acts);
            s.call.collector.Idle? && Asleep(s.link) && s.link.outq != [] ==> s.call.permit
  {
    InvRun(INIT, acts);
  }

  /** Conservation and order, in every interleaving. */
  lemma MessagesConserved(acts: seq<Action>)
    ensures var s := Run(INIT, acts);
            && |s.link.inq| <= 16 && |s.link.outq| <= 64
            && (!s.link.task.Finished? ==> s.link.injected == s.link.read + s.link.inq)
            && (s.link.rxAlive ==> s.log.sent == Flatten(s.log.returned) + s.call.batch + s.link.outq)
  {
    InvRun(INIT, acts);
  }

  /** A call ends with a last look at an empty queue: at that look, everything accepted so far is in the
      batches returned, and a `None` is only returned by a finished task all of whose output has been. */
  lemma ReturnIsComplete(acts: seq<Action>)
    ensures var s := Run(INIT, acts);
            var t := Step(s, Collect);
            !s.call.collector.Idle? && t.call.collector.Idle? ==>
              && t.log.sent == Flatten(t.log.returned)
              && (t.log.returned == s.log.returned <==> s.call.collector.AwaitFirst?)
              && (s.call.collector.AwaitFirst? ==> t.link.task.Finished?)
              && (s.call.collector.Drain? ==> t.log.returned == s.log.returned + [s.call.batch] && s.call.batch != [])
  {
    InvRun(INIT, acts);
    var s := Run(INIT, acts);
    InvStep(s, Collect);
  }

  /** A batch that did not take over an old permit and is not the last one ends only after a notification
      raised during the call, and holds all the task had sent by then.  The poll that found the input
      empty may lie before the call: see `EarlyBatchIff`. */
  lemma FreshBatchIsNotified(acts: seq<Action>)
    ensures var s := Run(INIT, acts);
            var t := Step(s, Collect);
            s.call.collector == Drain(false) && t.call.collector.Idle? && !s.log.stale ==>
              && t.log.noted.Some? && t.log.noted.value <= |t.log.sent|
              && t.log.sent[..t.log.noted.value] <= Flatten(t.log.returned)
  {
    InvRun(INIT, acts);
    ReturnIsComplete(acts);
  }

  // ── Progress of the collector by itself ─────────────────────────────

  function Times(n: nat): (acts: seq<Action>) {
    if n == 0 then [] else [Collect] + Times(n - 1)
  }

  /** Draining returns the batch extended with exactly what is in the output queue. */
  lemma {:induction false} DrainCompletes(s: State)
    requires s.call.collector.Drain?
    ensures var t := Run(s, Times(|s.link.outq| + 1));
            && t.call.collector.Idle?
            && t.log.returned == s.log.returned + [s.call.batch + s.link.outq]
            && t.log == s.log.(returned := t.log.returned, lastDone := s.call.collector.done)
    decreases |s.link.outq|
  {
    var q := s.link.outq;
    var s' := StepCollect(s);
    assert Times(|q| + 1)[1..] == Times(|q|);
    if q == [] {
      assert Run(s', Times(0)) == s';
      assert s.call.batch + q == s.call.batch;
    } else {
      DrainCompletes(s');
      assert s.call.batch + [q[0]] + q[1..] == s.call.batch + q;
    }
  }

  /** Once a notification is there to observe, the collector needs nobody else to return. */
  lemma ReadyCompletes(s: State)
    requires s.call.collector.PollNotified? && FutureReady(s.call)
    ensures var t := Run(s, Times(|s.link.outq| + 2));
            && t.call.collector.Idle? && !t.log.lastDone && t.log.noted == s.log.noted
            && t.log.returned == s.log.returned + [s.call.batch + s.link.outq]
  {
    assert Times(|s.link.outq| + 2)[1..] == Times(|s.link.outq| + 1);
    DrainCompletes(StepCollect(s));
  }

  lemma FirstMessageCompletes(s: State)
    requires s.call.collector.AwaitFirst? && FutureReady(s.call) && s.call.batch == [] && s.link.outq != []
    ensures var t := Run(s, Times(|s.link.outq| + 2));
            && t.call.collector.Idle? && !t.log.lastDone && t.log.noted == s.log.noted
            && t.log.returned == s.log.returned + [s.link.outq]
  {
    assert Times(|s.link.outq| + 2)[1..] == Times(|s.link.outq| + 1);
    var s' := StepCollect(s);
    ReadyCompletes(s');
    assert s'.call.batch + s'.link.outq == s.link.outq;
  }

  function StepsLeft(c: Call): nat {
    match c.collector
    case AwaitFirst => 3
    case PollNotified => if FutureReady(c) then 1 else 2
    case PollRecv => if FutureReady(c) then 2 else 1
    case _ => 0
  }

  /** With a notification to observe, or the task gone, the collector returns by itself. */
  lemma {:induction false} CollectorReturns(s: State) returns (n: nat)
    requires !s.call.collector.Idle?
    requires s.link.task.Finished? || s.call.collector.Drain? || (FutureReady(s.call) && (s.call.collector.AwaitFirst? ==> s.link.outq != []))
    ensures Run(s, Times(n)).call.collector.Idle?
    decreases |s.link.outq|, StepsLeft(s.call)
  {
    var s' := StepCollect(s);
    if s'.call.collector.Idle? {
      n := 1;
      assert Times(1)[1..] == Times(0) && Run(s', Times(0)) == s';
    } else {
      var m := CollectorReturns(s');
      n := m + 1;
      assert Times(n)[1..] == Times(m);
    }
  }

  /** So a call that has its first message is never stuck: if the task sleeps or has gone, and nothing
      else moves, `collect_batch` still returns. */
  lemma NeverStuck(pre: seq<Action>)
    requires var s := Run(INIT, pre);
             && !s.call.collector.Idle? && (s.call.collector.AwaitFirst? ==> s.link.outq != [] || s.link.task.Finished?)
             && (Asleep(s.link) || s.link.task.Finished?)
    ensures exists n :: Run(Run(INIT, pre), Times(n)).call.collector.Idle?
  {
    InvRun(INIT, pre);
    var n := CollectorReturns(Run(INIT, pre));
  }

  // ── One batch need not be one round ─────────────────────────────────

  ghost predicate OneCall(acts: seq<Action>) {
    forall a :: a in acts ==> !a.Enter?
  }

  /** The task polls an empty input: its part of the round is over. */
  predicate EndsRound(s: State, a: Action) {
    a.Poll? && s.link.task.Running? && Step(s, a).link.task.Parking?
  }

  /** Nowhere in these steps does the task come to the end of a round. */
  ghost predicate NoRoundEnds(s: State, acts: seq<Action>)
    decreases acts
  {
    acts != [] ==> !EndsRound(s, acts[0]) && NoRoundEnds(Step(s, acts[0]), acts[1..])
  }

  /** The call entered in `s` has returned a batch and reported the task as still going. */
  predicate ReturnsBatch(s: State, t: State) {
    t.call.collector.Idle? && |t.log.returned| == |s.log.returned| + 1 && !t.log.lastDone
  }

  /** These steps of one call, from its entry in `s`, return a batch although the task has not come to the
      end of a round since. */
  ghost predicate EndsEarly(s: State, acts: seq<Action>) {
    var s1 := Step(s, Enter);
    OneCall(acts) && NoRoundEnds(s1, acts) && ReturnsBatch(s, Run(s1, acts))
  }

  lemma {:induction false} NoPolls(s: State, acts: seq<Action>)
    requires forall a :: a in acts ==> !a.Poll?
    ensures NoRoundEnds(s, acts)
    decreases acts
  {
    if acts != [] {
      assert acts[0] in acts;
      NoPolls(Step(s, acts[0]), acts[1..]);
    }
  }

  lemma RunTwo(s: State, a: Action, b: Action)
    ensures Run(s, [a, b]) == Step(Step(s, a), b)
  {
    assert [a, b][1..] == [b] && [b][1..] == [];
    assert Run(Step(s, a), [b]) == Run(Step(Step(s, a), b), []);
  }

  /** Steps of one call in which the task does not poll. */
  ghost predicate Quiet(acts: seq<Action>) {
    forall a :: a in acts ==> !a.Enter? && !a.Poll?
  }

  lemma QuietTimes(n: nat)
    ensures Quiet(Times(n))
  {
  }

  /** A task that polled an empty input before the call and has not notified yet does so, and is woken. */
  lemma FinishParking(s: State) returns (acts: seq<Action>)
    requires s.call.collector.AwaitFirst?
    ensures Quiet(acts)
    ensures var t := Run(s, acts);
            && !t.link.task.Parking? && t.link.rxAlive == s.link.rxAlive && t.link.outq == s.link.outq
            && (t.link.task.Finished? <==> s.link.task.Finished?)
            && t.call.collector.AwaitFirst? && t.call.batch == s.call.batch && t.log.returned == s.log.returned
            && (FutureReady(s.call) || (s.link.task.Parking? && s.call.future.Waiting?) ==> FutureReady(t.call))
  {
    if s.link.task.Parking? {
      acts := [Notify, Wake];
      RunTwo(s, Notify, Wake);
    } else {
      acts := [];
    }
  }

  /** A first message can be had without the task polling. */
  lemma GetFirstMessage(s: State) returns (acts: seq<Action>)
    requires (s.link.outq != [] || s.link.task.Running? || s.link.task.Parked?) && s.link.rxAlive
    ensures Quiet(acts)
    ensures var t := Run(s, acts);
            t.link.outq != [] && t.call == s.call && t.log == s.log.(sent := t.log.sent)
  {
    if s.link.outq != [] {
      acts := [];
    } else {
      acts := [Wake, Send([])];
      RunTwo(s, Wake, Send([]));
    }
  }

  /** A call that finds a permit, or a task that has polled but not notified yet, can end before the round
      that is under way has ended. */
  lemma OldSignalEndsEarly(s: State) returns (acts: seq<Action>)
    requires Inv(s) && s.call.collector.Idle? && s.link.rxAlive
    requires (s.call.permit || s.link.task.Parking?) && (s.link.outq != [] || !s.link.task.Finished?)
    ensures EndsEarly(s, acts)
  {
    var s1 := Step(s, Enter);
    var signal := FinishParking(s1);
    var s2 := Run(s1, signal);
    var first := GetFirstMessage(s2);
    var s3 := Run(s2, first);
    FirstMessageCompletes(s3);
    var rest := Times(|s3.link.outq| + 2);
    QuietTimes(|s3.link.outq| + 2);
    acts := signal + first + rest;
    RunAppend(s1, signal + first, rest);
    RunAppend(s1, signal, first);
    NoPolls(s1, acts);
  }

  /** While a call that found neither runs, and no round ends, nothing can end its batch but the end of the
      task. */
  ghost predicate Undisturbed(before: State, t: State) {
    && Inv(t) && !t.link.task.Parking? && !t.log.stale && t.log.noted.None?
    && (|t.log.returned| == |before.log.returned| || t.log.lastDone)
  }

  lemma UndisturbedStep(before: State, t: State, a: Action)
    requires Undisturbed(before, t) && !a.Enter? && !EndsRound(t, a)
    ensures Undisturbed(before, Step(t, a))
  {
    InvStep(t, a);
  }

  lemma {:induction false} UndisturbedRun(before: State, t: State, acts: seq<Action>)
    requires Undisturbed(before, t) && OneCall(acts) && NoRoundEnds(t, acts)
    ensures Undisturbed(before, Run(t, acts))
    decreases acts
  {
    if acts != [] {
      assert acts[0] in acts;
      UndisturbedStep(before, t, acts[0]);
      UndisturbedRun(before, Step(t, acts[0]), acts[1..]);
    }
  }

  /** With the task gone and nothing left to deliver there is no batch to return. */
  ghost predicate Exhausted(before: State, t: State) {
    && Inv(t) && t.link.outq == [] && t.link.task.Finished? && t.log.returned == before.log.returned
    && (t.call.collector.Idle? || t.call.collector.AwaitFirst?)
  }

  lemma {:induction false} ExhaustedRun(before: State, t: State, acts: seq<Action>)
    requires Exhausted(before, t) && OneCall(acts)
    ensures Exhausted(before, Run(t, acts))
    decreases acts
  {
    if acts != [] {
      assert acts[0] in acts;
      InvStep(t, acts[0]);
      ExhaustedRun(before, Step(t, acts[0]), acts[1..]);
    }
  }

  /** Exactly when a batch may end before the round does: the call finds an old permit, or a task that has
      polled its empty input before and will notify only now; and a message can be had to start with. */
  lemma EarlyBatchIff(pre: seq<Action>)
    ensures var s := Run(INIT, pre);
            s.call.collector.Idle? && s.link.rxAlive ==>
              ((exists acts :: EndsEarly(s, acts))
               <==> (s.call.permit || s.link.task.Parking?) && (s.link.outq != [] || !s.link.task.Finished?))
  {
    InvRun(INIT, pre);
    var s := Run(INIT, pre);
    if s.call.collector.Idle? && s.link.rxAlive {
      var signal, canStart := s.call.permit || s.link.task.Parking?, s.link.outq != [] || !s.link.task.Finished?;
      if signal && canStart {
        var acts := OldSignalEndsEarly(s);
      }
      if acts :| EndsEarly(s, acts) {
        InvStep(s, Enter);
        if !signal {
          UndisturbedRun(s, Step(s, Enter), acts);
        } else if !canStart {
          ExhaustedRun(s, Step(s, Enter), acts);
        }
      }
    }
  }

  /** So a call that finds neither returns, short of the end of the task, only after a round has ended. */
  lemma UnsignalledBatchIsARound(pre: seq<Action>, acts: seq<Action>)
    requires var s := Run(INIT, pre);
             && s.call.collector.Idle? && s.link.rxAlive && !s.call.permit && !s.link.task.Parking?
             && OneCall(acts) && ReturnsBatch(s, Run(Step(s, Enter), acts))
    ensures !NoRoundEnds(Step(Run(INIT, pre), Enter), acts)
  {
    EarlyBatchIff(pre);
    assert !EndsEarly(Run(INIT, pre), acts);
  }
}

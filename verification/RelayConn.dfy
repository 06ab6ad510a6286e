/** The relay as the code runs it: `ChannelRelayConn` with its queues, and the loops of
    `inject_all` and `collect_batch`.  Every method performs atomic actions of `Relay` on
    the state it updates; at each point where the code awaits, the other actors may act, which the
    `schedule` arguments spell out, one batch of foreign actions per await. */
module RelayConn {
  import opened Wrappers
  import opened Relay

  /** `Blocked`: the schedule ran out while the call was still waiting. */
  datatype Outcome = Batch(messages: seq<Message>, done: bool) | Closed | Blocked

  /** What a poll of the input queue yields. */
  datatype PollResult = Item(m: Message) | EndOfInput | Pending

  /** Actions of the protocol task and of the injecting side. */
  predicate Foreign(a: Action) {
    !a.Enter? && !a.Collect? && !a.DropReceiver?
  }

  lemma RunSnoc(s: State, acts: seq<Action>, a: Action)
    ensures Run(s, acts + [a]) == Step(Run(s, acts), a)
  {
    RunAppend(s, acts, [a]);
    assert [a][1..] == [];
  }

  /** Foreign actions leave the collector, its batch and what it returned alone. */
  lemma {:induction false} ForeignRun(s: State, acts: seq<Action>)
    requires forall a :: a in acts ==> Foreign(a)
    ensures var t := Run(s, acts);
            && t.call.collector == s.call.collector && t.call.batch == s.call.batch
            && t.log.returned == s.log.returned && t.link.rxAlive == s.link.rxAlive
    decreases acts
  {
    if acts != [] {
      assert acts[0] in acts;
      ForeignRun(Step(s, acts[0]), acts[1..]);
    }
  }

  lemma DrainedReturn(s: State)
    requires Inv(s) && s.call.collector.Drain? && s.link.outq == []
    ensures Inv(StepCollect(s)) && StepCollect(s).log.sent == Flatten(StepCollect(s).log.returned)
  {
    InvStep(s, Collect);
    AllReturned(StepCollect(s));
  }

  lemma AllReturned(s: State)
    requires Inv(s) && s.call.collector.Idle? && s.link.outq == [] && s.link.rxAlive
    ensures s.log.sent == Flatten(s.log.returned)
  {
  }

  ghost predicate AllForeign(schedule: seq<seq<Action>>) {
    forall k, a :: 0 <= k < |schedule| && a in schedule[k] ==> Foreign(a)
  }

  class ChannelRelayConn {
    var rx: seq<Message>       // input queue, read by the task
    var inOpen: bool
    var tx: seq<Message>       // output queue, read by the collector
    var rxAlive: bool
    var task: Task
    var permit: bool           // round_complete
    var notified: Future
    ghost var injected: seq<Message>
    ghost var read: seq<Message>
    ghost var collector: Collector
    ghost var batch: seq<Message>
    ghost var log: Log

    ghost function View(): State
      reads this
    {
      State(Link(rx, inOpen, tx, rxAlive, task, injected, read), Call(permit, notified, collector, batch), log)
    }

    constructor ()
      ensures View() == INIT && Inv(View())
    {
      rx, inOpen, tx, rxAlive := [], true, [], true;
      task, permit, notified := Running, false, NoFuture;
      injected, read := [], [];
      collector, batch, log := Idle, [], Log([], [], false, None, false);
    }

    method StartSend(m: Message) returns (accepted: bool)
      requires task.Running?
      modifies this
      ensures View() == Step(old(View()), Send(m))
      ensures accepted <==> View().log.sent == old(log.sent) + [m]
    {
      accepted := rxAlive && |tx| < OUT_CAPACITY;
      if accepted {
        tx := tx + [m];
        log := log.(sent := log.sent + [m]);
      }
    }

    method PollInput() returns (r: PollResult)
      requires task.Running?
      modifies this
      ensures View() == Step(old(View()), Poll)
      ensures r.Item? <==> old(rx) != []
      ensures r.Item? ==> old(rx) == [r.m] + rx
      ensures r.Pending? <==> task.Parking?
    {
      if rx != [] {
        r := Item(rx[0]);
        read := read + [rx[0]];
        rx := rx[1..];
      } else if inOpen {
        r := Pending;
        task := Parking;
      } else {
        r := EndOfInput;
      }
    }

    method NotifyOneWaiter()
      requires task.Parking?
      modifies this
      ensures View() == Step(old(View()), Notify)
    {
      if notified.Waiting? {
        notified := Delivered;
      } else {
        permit := true;
      }
      log := log.(noted := Some(|log.sent|));
      task := Parked;
    }

    /** `poll_next`: a pending poll fires `round_complete`. */
    method PollNext() returns (r: PollResult)
      requires task.Running?
      modifies this
      ensures View() == Run(old(View()), [Poll, Notify])
      ensures r.Pending? <==> task.Parked?
      ensures r.Pending? ==> notified.Delivered? || notified.NoFuture? || notified.Ready?
      ensures r.Pending? && !old(notified.Waiting?) ==> permit
    {
      r := PollInput();
      if r.Pending? {
        NotifyOneWaiter();
      }
      RunTwo(old(View()), Poll, Notify);
    }

    /** The other actors run for a while. */
    method Others(acts: seq<Action>)
      requires forall a :: a in acts ==> Foreign(a)
      modifies this
      ensures View() == Run(old(View()), acts)
    {
      var i := 0;
      assert acts[..0] == [];
      while i < |acts|
        invariant i <= |acts|
        invariant View() == Run(old(View()), acts[..i])
        decreases |acts| - i
      {
        var a := acts[i];
        assert Foreign(a);
        RunSnoc(old(View()), acts[..i], a);
        assert acts[..i] + [a] == acts[..i + 1];
        match a {
          case Send(m) => if task.Running? { var _ := StartSend(m); }
          case Poll => if task.Running? { var _ := PollInput(); }
          case Notify => if task.Parking? { NotifyOneWaiter(); }
          case Wake => if task.Parked? { task := Running; }
          case Finish => if task.Running? || task.Parked? { task, rx := Finished, []; }
          case Inject(m) => if inOpen && !task.Finished? && |rx| < IN_CAPACITY { rx, injected := rx + [m], injected + [m]; }
          case CloseInput => inOpen := false;
        }
        i := i + 1;
      }
      assert acts[..|acts|] == acts;
    }

    /** `inject_all`: put every message in turn, waiting for room in the queue.  `put` counts the
        messages that went in; it falls short when the task has gone, or when the schedule ends
        while the queue is full. */
    method InjectAll(messages: seq<Message>, schedule: seq<seq<Action>>)
        returns (r: Result<(), ()>, put: nat, ghost trace: seq<Action>)
      requires inOpen && Inv(View()) && AllForeign(schedule)
      requires forall k, a :: 0 <= k < |schedule| && a in schedule[k] ==> !a.CloseInput? && !a.Inject?
      modifies this
      ensures Traced(old(View()), trace)
      ensures put <= |messages| && injected == old(injected) + messages[..put]
      ensures r.Err? ==> task.Finished? && put < |messages|
      ensures r.Ok? && put < |messages| ==> |rx| == IN_CAPACITY
    {
      put, trace := 0, [];
      var i := 0;
      while put < |messages|
        invariant put <= |messages| && i <= |schedule| && injected == old(injected) + messages[..put]
        invariant inOpen && Traced(old(View()), trace)
        decreases |messages| - put, |schedule| - i
      {
        if task.Finished? {
          return Err(()), put, trace;
        }
        if |rx| < IN_CAPACITY {
          var m := messages[put];
          RunSnoc(old(View()), trace, Inject(m));
          InvStep(View(), Inject(m));
          rx, injected := rx + [m], injected + [m];
          trace := trace + [Inject(m)];
          put := put + 1;
        } else if i < |schedule| {
          QuietInput(View(), schedule[i]);
          trace := Await(old(View()), trace, schedule[i]);
          i := i + 1;
        } else {
          return Ok(()), put, trace;
        }
      }
      r := Ok(());
    }

    /** Everything done since `start` is `trace`, and the invariant of all runs holds. */
    ghost predicate Traced(start: State, trace: seq<Action>)
      reads this
    {
      Inv(View()) && View() == Run(start, trace)
    }

    /** One await point of the collector. */
    method Await(ghost start: State, ghost before: seq<Action>, acts: seq<Action>) returns (ghost trace: seq<Action>)
      requires Traced(start, before)
      requires forall a :: a in acts ==> Foreign(a)
      modifies this
      ensures trace == before + acts && Traced(start, trace) && View() == Run(old(View()), acts)
      ensures collector == old(collector) && batch == old(batch)
      ensures log.returned == old(log.returned) && rxAlive == old(rxAlive)
    {
      InvRun(View(), acts);
      ForeignRun(View(), acts);
      RunAppend(start, before, acts);
      Others(acts);
      trace := before + acts;
    }

    /** Take the oldest message off the output queue. */
    method Receive(ghost start: State, ghost before: seq<Action>) returns (m: Message, ghost trace: seq<Action>)
      requires Traced(start, before) && tx != []
      requires collector.AwaitFirst? || collector.PollRecv? || collector.Drain?
      modifies this
      ensures Traced(start, trace)
      ensures [m] + tx == old(tx) && batch == old(batch) + [m]
      ensures collector == if old(collector).Drain? then old(collector) else PollNotified
      ensures log == old(log)
    {
      InvStep(View(), Collect);
      RunSnoc(start, before, Collect);
      m := tx[0];
      tx, batch := tx[1..], batch + [m];
      collector := if collector.Drain? then collector else PollNotified;
      trace := before + [Collect];
    }

    /** Poll the future. */
    method PollFuture(ghost start: State, ghost before: seq<Action>) returns (ready: bool, ghost trace: seq<Action>)
      requires Traced(start, before) && collector.PollNotified?
      modifies this
      ensures Traced(start, trace)
      ensures collector == if ready then Drain(false) else PollRecv
      ensures !ready ==> !FutureReady(View().call)
      ensures tx == old(tx) && batch == old(batch) && log == old(log) && task == old(task)
    {
      InvStep(View(), Collect);
      RunSnoc(start, before, Collect);
      ready := notified.Delivered? || notified.Ready?;
      if ready {
        notified, collector := Ready, Drain(false);
      } else {
        collector := PollRecv;
      }
      trace := before + [Collect];
    }

    /** Leave `collect_batch` without a batch, dropping the future. */
    method ReturnNone(ghost start: State, ghost before: seq<Action>) returns (ghost trace: seq<Action>)
      requires Traced(start, before) && tx == [] && collector.AwaitFirst? && task.Finished?
      modifies this
      ensures Traced(start, trace) && collector.Idle? && task.Finished?
      ensures log.returned == old(log.returned) && log.sent == Flatten(log.returned)
    {
      InvStep(View(), Collect);
      RunSnoc(start, before, Collect);
      log := log.(lastDone := true);
      permit, notified, collector := permit || notified.Delivered?, NoFuture, Idle;
      trace := before + [Collect];
      AllReturned(View());
    }

    /** Leave `collect_batch` with a batch, dropping the future. */
    method ReturnBatch(ghost start: State, ghost before: seq<Action>, done: bool) returns (ghost trace: seq<Action>)
      requires Traced(start, before) && tx == [] && collector == Drain(done)
      modifies this
      ensures Traced(start, trace) && collector.Idle?
      ensures log.returned == old(log.returned) + [old(batch)] && log.lastDone == done
      ensures log.sent == Flatten(log.returned)
    {
      ghost var s := View();
      log := log.(returned := log.returned + [batch], lastDone := done);
      permit, notified, collector, batch := permit || notified.Delivered?, NoFuture, Idle, [];
      assert View() == StepCollect(s);
      trace := before + [Collect];
      RunSnoc(start, before, Collect);
      DrainedReturn(s);
    }

    /** Steps 1 and 2: create and enable the future, then wait for the first message. */
    method AwaitFirstMessage(schedule: seq<seq<Action>>) returns (found: bool, next: nat, ghost trace: seq<Action>)
      requires collector.Idle? && rxAlive && Inv(View()) && AllForeign(schedule)
      modifies this
      ensures Traced(old(View()), trace) && next <= |schedule|
      ensures collector.AwaitFirst? && log.returned == old(log.returned)
      ensures found <==> tx != [] || task.Finished?
    {
      InvStep(View(), Enter);
      RunSnoc(old(View()), [], Enter);
      log := log.(stale := permit, noted := None);
      notified, permit := if permit then Ready else Waiting, false;
      collector := AwaitFirst;
      trace, next := [Enter], 0;
      while tx == [] && !task.Finished? && next < |schedule|
        invariant next <= |schedule| && collector.AwaitFirst? && log.returned == old(log.returned)
        invariant Traced(old(View()), trace)
        decreases |schedule| - next
      {
        trace := Await(old(View()), trace, schedule[next]);
        next := next + 1;
      }
      found := tx != [] || task.Finished?;
    }

    /** Step 3: wait for the notification or the end of the task, looking at the notification first. */
    method Select(ghost start: State, ghost before: seq<Action>, first: Message, schedule: seq<seq<Action>>, from: nat)
        returns (ended: bool, done: bool, messages: seq<Message>, next: nat, ghost trace: seq<Action>)
      requires Traced(start, before) && collector.PollNotified? && batch == [first]
      requires from <= |schedule| && AllForeign(schedule)
      modifies this
      ensures Traced(start, trace) && messages == batch && log.returned == old(log.returned) && next <= |schedule|
      ensures ended ==> collector == Drain(done)
      ensures !ended ==> collector.PollRecv? && tx == [] && !task.Finished? && !FutureReady(View().call)
    {
      done, messages, next, trace := false, [first], from, before;
      while true
        invariant !done && next <= |schedule| && collector.PollNotified? && batch == messages && log.returned == old(log.returned)
        invariant Traced(start, trace)
        decreases |schedule| - next, |tx|
      {
        ended, trace := PollFuture(start, trace);
        if ended {
          return;
        }
        if next < |schedule| {
          trace := Await(start, trace, schedule[next]);
          next := next + 1;
        } else if tx == [] && !task.Finished? {
          return;
        }
        if tx != [] {
          var m;
          m, trace := Receive(start, trace);
          messages := messages + [m];
        } else {
          InvStep(View(), Collect);
          RunSnoc(start, trace, Collect);
          trace := trace + [Collect];
          if task.Finished? {
            collector := Drain(true);
            ended, done := true, true;
            return;
          }
          collector := PollNotified;
        }
      }
    }

    /** `collect_batch`. */
    method CollectBatch(schedule: seq<seq<Action>>) returns (r: Outcome, ghost trace: seq<Action>)
      requires collector.Idle? && rxAlive && Inv(View()) && AllForeign(schedule)
      modifies this
      ensures Inv(View()) && View() == Run(old(View()), trace)
      ensures !r.Blocked? ==> collector.Idle? && log.sent == Flatten(log.returned)
      ensures r.Batch? ==> log.returned == old(log.returned) + [r.messages] && log.lastDone == r.done && r.messages != []
      ensures r.Closed? ==> log.returned == old(log.returned) && task.Finished?
      ensures r.Blocked? ==> tx == [] && !task.Finished? && log.returned == old(log.returned)
      ensures r.Blocked? ==> (batch == [] || !Asleep(View().link))
    {
      var found, i;
      found, i, trace := AwaitFirstMessage(schedule);
      if !found {
        return Blocked, trace;
      }
      if tx == [] {
        trace := ReturnNone(old(View()), trace);
        return Closed, trace;
      }
      var first, messages, done;
      first, trace := Receive(old(View()), trace);
      found, done, messages, i, trace := Select(old(View()), trace, first, schedule, i);
      if !found {
        return Blocked, trace;
      }

      // Step 4: drain.
      while tx != []
        invariant i <= |schedule| && collector == Drain(done) && batch == messages && log.returned == old(log.returned)
        invariant Traced(old(View()), trace)
        decreases |schedule| - i, |tx|
      {
        var m;
        m, trace := Receive(old(View()), trace);
        messages := messages + [m];
        if i < |schedule| {
          trace := Await(old(View()), trace, schedule[i]);
          i := i + 1;
        }
      }
      trace := ReturnBatch(old(View()), trace, done);
      r := Batch(messages, done);
    }
  }

  /** Actions that do not touch the sending half of the input queue leave it alone. */
  lemma {:induction false} QuietInput(s: State, acts: seq<Action>)
    requires forall a :: a in acts ==> !a.CloseInput? && !a.Inject?
    ensures Run(s, acts).link.inOpen == s.link.inOpen && Run(s, acts).link.injected == s.link.injected
    decreases acts
  {
    if acts != [] {
      assert acts[0] in acts;
      QuietInput(Step(s, acts[0]), acts[1..]);
    }
  }
}

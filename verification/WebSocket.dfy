/** `WebSocketMpcTransport`: its fields and event handlers, each proved to be one event of `Matcher`. */
module WebSocket {
  import opened Wrappers
  import opened Matcher

  class WebSocketMpcTransport {
    var channel: Option<nat>
    var subscription: Option<nat>
    var connecting: bool
    var pendingRequests: map<Id, nat>
    var nextChannel: nat
    var live: set<nat>              // streams listened to
    var calls: map<nat, Call>       // the `send` calls and what their futures have come to

    ghost function View(): State
      reads this
    {
      State(Link(channel, subscription, connecting, live, nextChannel), pendingRequests, calls)
    }

    constructor ()
      ensures View() == INIT
    {
      channel, subscription, connecting, pendingRequests := None, None, false, map[];
      nextChannel, live, calls := 0, {}, map[];
    }

    /** A future completes, with a response or with an error. */
    method CompleteCall(c: nat, o: Outcome)
      requires c in calls
      modifies this`calls
      ensures calls == old(calls)[c := Complete(old(calls)[c], o)]
    {
      calls := calls[c := Call(calls[c].payload, Done, calls[c].outcomes + [o])];
    }

    /** Completing the connect completer, or completing it with an error. */
    method ReleaseWaiting(ok: bool)
      modifies this`calls
      ensures calls == Released(old(calls), ok)
    {
      ghost var before := calls;
      var rest := calls.Keys;
      while rest != {}
        invariant calls.Keys == before.Keys && rest <= before.Keys
        invariant forall c :: c in before ==> calls[c] == if c in rest then before[c] else Released(before, ok)[c]
        decreases |rest|
      {
        var c :| c in rest;
        rest := rest - {c};
        if calls[c].stage.WaitingConnect? {
          if ok { calls := calls[c := calls[c].(stage := Connected)]; }
          else { CompleteCall(c, ConnectFailed); }
        }
      }
      assert calls == Released(before, ok);
    }

    /** `send` up to its first wait. */
    method EnsureConnected(c: nat, payload: Payload, factoryThrows: bool)
      requires c !in calls
      modifies this
      ensures View() == Step(old(View()), Send(c, payload, factoryThrows))
    {
      if channel.Some? { calls := calls[c := Call(payload, Connected, [])]; return; }
      if connecting { calls := calls[c := Call(payload, WaitingConnect, [])]; return; }
      connecting := true;
      calls := calls[c := Call(payload, Opening, [])];
      if factoryThrows {
        FailConnecting(c);
      } else {
        channel, nextChannel := Some(nextChannel), nextChannel + 1;
      }
    }

    method FailConnecting(c: nat)
      requires c in calls
      modifies this`channel, this`connecting, this`calls
      ensures channel == None && !connecting && calls == Released(old(calls)[c := Complete(old(calls)[c], ConnectFailed)], false)
    {
      channel := None;
      CompleteCall(c, ConnectFailed);
      ReleaseWaiting(false);
      connecting := false;
    }

    method HandshakeOver(c: nat, ready: bool)
      requires c in calls && calls[c].stage.Opening?
      modifies this
      ensures View() == Step(old(View()), Handshake(c, ready))
    {
      if !ready || channel.None? {
        FailConnecting(c);
      } else {
        subscription := channel;
        live := live + {channel.value};
        calls := calls[c := calls[c].(stage := Connected)];
        ReleaseWaiting(true);
        connecting := false;
      }
    }

    /** `send` between its waits. */
    method SendRequest(c: nat, sinkThrows: bool)
      requires c in calls && calls[c].stage.Connected?
      modifies this
      ensures View() == Step(old(View()), Register(c, sinkThrows))
    {
      if !calls[c].payload.WithId? { CompleteCall(c, BadPayload); return; }
      var id := calls[c].payload.id;
      ghost var before := pendingRequests;
      pendingRequests := pendingRequests[id := c];
      if channel.None? || sinkThrows {
        pendingRequests := pendingRequests - {id};
        assert pendingRequests == before - {id};
        channel := None;
        CompleteCall(c, SinkFailed);
      } else {
        calls := calls[c := calls[c].(stage := Waiting(id))];
      }
    }

    method OnTimeout(c: nat)
      requires c in calls && calls[c].stage.Waiting?
      modifies this
      ensures View() == Step(old(View()), Timeout(c))
    {
      pendingRequests := pendingRequests - {calls[c].stage.id};
      CompleteCall(c, TimedOut);
    }

    /** `id` is `None` where the message is no JSON object or has no id. */
    method HandleMessage(stream: nat, id: Option<Id>, text: string)
      requires Inv(View()) && stream in live
      modifies this
      ensures View() == Step(old(View()), Message(stream, id, text))
    {
      if id.None? { return; }
      if id.value !in pendingRequests { return; }
      var completer := pendingRequests[id.value];
      pendingRequests := pendingRequests - {id.value};
      CompleteCall(completer, Response(id.value, text));
    }

    /** Every completer that is not completed yet gets the error. */
    method InterruptAll(completers: set<nat>)
      requires completers <= calls.Keys
      modifies this`calls
      ensures calls == Interrupted(old(calls), completers)
    {
      ghost var before := calls;
      var rest := completers;
      while rest != {}
        invariant rest <= completers && calls.Keys == before.Keys
        invariant forall c :: c in before ==> calls[c] == if c in rest then before[c] else Interrupted(before, completers)[c]
        decreases |rest|
      {
        var c :| c in rest;
        rest := rest - {c};
        if !calls[c].stage.Done? { CompleteCall(c, Disconnected); }
      }
      assert calls == Interrupted(before, completers);
    }

    method Disconnect()
      requires Inv(View())
      modifies this
      ensures View() == Matcher.Disconnect(old(View()))
    {
      channel := None;
      if subscription.Some? { live := live - {subscription.value}; }
      subscription := None;
      assert pendingRequests.Values <= calls.Keys;
      InterruptAll(pendingRequests.Values);
      pendingRequests := map[];
    }

    method HandleStreamEnd(stream: nat)
      requires Inv(View()) && stream in live
      modifies this
      ensures View() == Step(old(View()), StreamEnds(stream))
    {
      Disconnect();
    }

    method CloseTransport()
      requires Inv(View())
      modifies this
      ensures View() == Step(old(View()), Close)
    {
      Disconnect();
    }
  }
}

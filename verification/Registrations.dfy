/** What clients are told about their registration (src/domain/state.rs:194-224). */
module Registrations {
  import opened Ids
  import opened Messages
  import opened QueryHandlers
  import opened StateMachine

  /** A client has been told that it is registered. */
  predicate Welcome(e: Event) {
    e.Sent? && e.ok && e.msg.ClientRegistered?
  }

  /** `e` tells a client that it is registered, and `f` puts this client into the tables, with the channel `e` was
      sent on. */
  predicate Admits(e: Event, f: Event) {
    Welcome(e) && f.Registered? && e.to == e.msg.client == f.client && e.tx == f.tx
  }

  ghost predicate PairedAt(out: seq<Event>, i: nat)
    requires i < |out|
  {
    && (out[i].Registered? ==> i > 0 && Admits(out[i - 1], out[i]))
    && (Welcome(out[i]) ==> i + 1 < |out| && Admits(out[i], out[i + 1]))
  }

  /** Whoever is told that it is registered enters the tables next, and nobody else does. */
  ghost predicate Paired(out: seq<Event>) {
    forall i :: 0 <= i < |out| ==> PairedAt(out, i)
  }

  lemma PairedAppend(out: seq<Event>, more: seq<Event>)
    requires Paired(out) && Paired(more)
    ensures Paired(out + more)
  {
    forall i | 0 <= i < |out + more| ensures PairedAt(out + more, i) {
      if i < |out| {
        assert PairedAt(out, i);
      } else {
        assert PairedAt(more, i - |out|);
      }
    }
  }

  lemma MessageIsPaired(b: Broker, m: ClientMessage, now: int, net: Net, st: EventStore.Storage)
    ensures Paired(Dispatch(b, m, now, net, st).out)
  {
    var out := Dispatch(b, m, now, net, st).out;
    if !m.RegisterClient? {
      if !m.DisconnectClient? {
        OthersKeepClients(b, m, now, net, st);
      }
      forall i | 0 <= i < |out| ensures PairedAt(out, i) {
        if out[i].Sent? {
          MessagesSayWhatTheyCarry(b, m, now, net, st, out[i]);
        }
      }
    }
  }

  lemma StepIsPaired(s: System, step: Step)
    ensures Paired(Apply(s, step).out)
  {
    match step
    case Receive(m, net, st) => MessageIsPaired(Touch(s.broker, m.Source(), s.now), m, s.now, net, st);
    case Tick(olds, expired, net) =>
      var probed := ProbeAll(s.broker, olds, s.now, net);
      ProbesSay(s.broker, olds, s.now, net);
      ExpirySays(probed.state, expired, net);
      PairedAppend(probed.out, ExpireAll(probed.state, expired, net).out);
    case Broadcast(job, order, net) =>
      if job < |s.broker.jobs| {
        BroadcastSays(s.broker, order, SourceEventBroadcast(s.broker.jobs[job]), net);
      }
    case Advance(_) =>
  }

  /** In every run a client enters the tables exactly when it has just been told so, on the channel it will be reached
      on. */
  lemma {:induction false} RegisteredExactlyWhenTold(s: System, steps: seq<Step>)
    ensures Paired(Exec(s, steps).out)
    decreases |steps|
  {
    if steps != [] {
      var before, last := Exec(s, steps[..|steps| - 1]), steps[|steps| - 1];
      RegisteredExactlyWhenTold(s, steps[..|steps| - 1]);
      StepIsPaired(before.next, last);
      PairedAppend(before.out, Apply(before.next, last).out);
    }
  }

  /** A new client is sent its welcome on the channel it registers with; it is registered exactly when that works, and
      otherwise nothing changes. */
  lemma NewClientIsWelcomed(s: System, m: ClientMessage, net: Net, st: EventStore.Storage)
    requires m.RegisterClient? && m.client !in s.broker.connected
    ensures var welcomed := Apply(s, Receive(m, net, st));
            var ok := net(m.client, m.tx, ClientRegistered(m.client));
            && |welcomed.out| >= 1 && welcomed.out[0] == Sent(m.client, m.tx, ClientRegistered(m.client), ok)
            && (ok ==>
                  && welcomed.out[1..] == [Registered(m.client, m.queries, m.tx)]
                  && welcomed.next.broker.connected.Keys == s.broker.connected.Keys + {m.client}
                  && welcomed.next.broker.connected[m.client] == ClientInfo(m.tx, s.now))
            && (!ok ==> |welcomed.out| == 1 && welcomed.next == s)
  {
    assert Touch(s.broker, m.Source(), s.now) == s.broker;
  }

  /** A second registration of a connected id is refused on the channel it came on, and disturbs nobody. */
  lemma DuplicateClientIsRefused(s: System, m: ClientMessage, net: Net, st: EventStore.Storage)
    requires m.RegisterClient? && m.client in s.broker.connected
    ensures var refused := Apply(s, Receive(m, net, st));
            && refused.next == s
            && |refused.out| == 1 && refused.out[0].Sent?
            && refused.out[0].tx == m.tx && refused.out[0].msg == ClientRegistrationFailed(m.client)
  {
  }
}

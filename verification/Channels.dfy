/** On which channel clients are reached (src/domain/state.rs:168-484). */
module Channels {
  import opened Ids
  import opened Messages
  import opened QueryHandlers
  import opened StateMachine
  import opened Registry
  import opened Ticks
  import EventStore
  import Requests

  /** `c` is registered, with channel `tx`. */
  ghost predicate Holds(regs: Registry, c: ClientId, tx: Tx) {
    exists i :: 0 <= i < |regs| && regs[i].client == c && regs[i].tx == tx
  }

  /** A send goes on the channel its addressee registered with, unless it answers a registration, and its result is
      the one the network gave. */
  ghost predicate Genuine(regs: Registry, net: Net, e: Event) {
    e.Sent? ==>
      && e.ok == net(e.to, e.tx, e.msg)
      && (e.msg.ClientRegistered? || e.msg.ClientRegistrationFailed? || Holds(regs, e.to, e.tx))
  }

  /** Every send is genuine for the registrations in force when it is made. */
  ghost predicate AllGenuine(regs: Registry, net: Net, out: seq<Event>) {
    forall i :: 0 <= i < |out| ==> Genuine(Replay(regs, out[..i]), net, out[i])
  }

  lemma GenuineLater(regs: Registry, net: Net, out: seq<Event>, more: seq<Event>, i: nat)
    requires AllGenuine(Replay(regs, out), net, more) && |out| <= i < |out + more|
    ensures Genuine(Replay(regs, (out + more)[..i]), net, (out + more)[i])
  {
    assert (out + more)[..i] == out + more[..i - |out|];
    ReplayAppend(regs, out, more[..i - |out|]);
  }

  lemma GenuineAppend(regs: Registry, net: Net, out: seq<Event>, more: seq<Event>)
    requires AllGenuine(regs, net, out) && AllGenuine(Replay(regs, out), net, more)
    ensures AllGenuine(regs, net, out + more)
  {
    forall i | 0 <= i < |out + more| ensures Genuine(Replay(regs, (out + more)[..i]), net, (out + more)[i]) {
      if i < |out| {
        assert (out + more)[..i] == out[..i];
      } else {
        GenuineLater(regs, net, out, more, i);
      }
    }
  }

  lemma ConnectedHolds(b: Broker, regs: Registry, c: ClientId)
    requires Reflects(b, regs) && c in b.connected
    ensures Holds(regs, c, b.connected[c].tx)
  {
    assert c in Clients(regs);
  }

  /** Sends to connected clients on their channels. */
  ghost predicate OwnSends(b: Broker, net: Net, out: seq<Event>) {
    forall e :: e in out && e.Sent? ==>
      e.to in b.connected && e.tx == b.connected[e.to].tx && e.ok == net(e.to, e.tx, e.msg)
  }

  lemma OwnSendsGenuine(b: Broker, regs: Registry, net: Net, out: seq<Event>)
    requires Reflects(b, regs) && OwnSends(b, net, out) && NoRegistryEvents(out)
    ensures AllGenuine(regs, net, out)
  {
    forall i | 0 <= i < |out| ensures Genuine(Replay(regs, out[..i]), net, out[i]) {
      ReplayQuiet(regs, out[..i]);
      if out[i].Sent? {
        ConnectedHolds(b, regs, out[i].to);
      }
    }
  }

  lemma RequestSends(b: Broker, m: ClientMessage, now: int, net: Net)
    requires m.QueryRequest?
    ensures OwnSends(b, net, Request(b, m, now, net).out)
  {
  }

  lemma DispatchGenuine(b: Broker, regs: Registry, m: ClientMessage, now: int, net: Net, st: EventStore.Storage)
    requires Reflects(b, regs)
    ensures AllGenuine(regs, net, Dispatch(b, m, now, net, st).out)
  {
    if !m.RegisterClient? && !m.DisconnectClient? {
      OthersKeepClients(b, m, now, net, st);
      if m.QueryRequest? {
        RequestSends(b, m, now, net);
      }
      OwnSendsGenuine(b, regs, net, Dispatch(b, m, now, net, st).out);
    }
  }

  lemma {:induction false} ExpiriesAreOwn(b: Broker, expired: seq<Ongoing>, net: Net)
    ensures OwnSends(b, net, ExpireAll(b, expired, net).out)
  {
    if expired != [] {
      ExpiriesAreOwn(b, expired[..|expired| - 1], net);
      ExpireAllKeepsClients(b, expired[..|expired| - 1], net);
    }
  }

  lemma {:induction false} CopiesAreOwn(b: Broker, order: seq<ClientId>, msg: ServerMessage, net: Net)
    ensures OwnSends(b, net, SendAll(b, order, msg, net))
  {
    if order != [] {
      CopiesAreOwn(b, order[..|order| - 1], msg, net);
    }
  }

  lemma {:induction false} ProbesGenuine(b: Broker, regs: Registry, olds: seq<(ClientId, Tx)>, now: int, net: Net)
    requires Reflects(b, regs) && AreClients(b, olds)
    ensures AllGenuine(regs, net, ProbeAll(b, olds, now, net).out)
  {
    if olds != [] {
      var front, last := olds[..|olds| - 1], olds[|olds| - 1];
      var before := ProbeAll(b, front, now, net);
      ProbesGenuine(b, regs, front, now, net);
      ProbeAllReflects(b, regs, front, now, net);
      ProbeAllBySet(b, front, now, net);
      assert last.0 !in IdsIn(front);
      ProbeGenuine(before.state, Replay(regs, before.out), last, now, net);
      GenuineAppend(regs, net, before.out, Probe(before.state, last, now, net).out);
    }
  }

  lemma ProbeGenuine(b: Broker, regs: Registry, stale: (ClientId, Tx), now: int, net: Net)
    requires Reflects(b, regs) && stale.0 in b.connected && b.connected[stale.0].tx == stale.1
    ensures AllGenuine(regs, net, Probe(b, stale, now, net).out)
  {
    ConnectedHolds(b, regs, stale.0);
    assert Probe(b, stale, now, net).out[..0] == [];
  }

  lemma {:induction false} StepGenuine(limits: Limits, s: System, regs: Registry, step: Step)
    requires Reflects(s.broker, regs) && Enabled(limits, s, step) && !step.Advance?
    ensures AllGenuine(regs, step.net, Apply(s, step).out)
  {
    match step
    case Receive(m, net, st) =>
      TouchReflects(s.broker, regs, m.Source(), s.now);
      DispatchGenuine(Touch(s.broker, m.Source(), s.now), regs, m, s.now, net, st);
    case Tick(olds, expired, net) =>
      var probed := ProbeAll(s.broker, olds, s.now, net);
      EnabledTickClients(limits, s, step);
      ProbesGenuine(s.broker, regs, olds, s.now, net);
      ProbeAllReflects(s.broker, regs, olds, s.now, net);
      ExpiriesAreOwn(probed.state, expired, net);
      ExpirySays(probed.state, expired, net);
      OwnSendsGenuine(probed.state, Replay(regs, probed.out), net, ExpireAll(probed.state, expired, net).out);
      GenuineAppend(regs, net, probed.out, ExpireAll(probed.state, expired, net).out);
    case Broadcast(job, order, net) =>
      var msg := SourceEventBroadcast(s.broker.jobs[job]);
      CopiesAreOwn(s.broker, order, msg, net);
      BroadcastSays(s.broker, order, msg, net);
      OwnSendsGenuine(s.broker, regs, net, SendAll(s.broker, order, msg, net));
  }

  lemma {:induction false} NextStepGenuine(limits: Limits, t: int, steps: seq<Step>, step: Step)
    requires IsRun(limits, Start(t), steps) && Enabled(limits, Exec(Start(t), steps).next, step) && !step.Advance?
    ensures var before := Exec(Start(t), steps);
            AllGenuine(Replay([], before.out), step.net, Apply(before.next, step).out)
  {
    StartReflects(t);
    IndexRefinesRegistrations(Start(t), [], steps);
    StepGenuine(limits, Exec(Start(t), steps).next, Replay([], Exec(Start(t), steps).out), step);
  }

  /** In every run, every send goes on the channel its addressee is registered with at that point of the trace, or on
      that of the registration it answers, and its result is the one the network gave in that step. */
  lemma {:induction false} EverySendIsGenuine(limits: Limits, t: int, steps: seq<Step>, i: nat) returns (k: nat)
    requires IsRun(limits, Start(t), steps)
    requires i < |Exec(Start(t), steps).out| && Exec(Start(t), steps).out[i].Sent?
    ensures k < |steps| && Requests.EmittedBy(Start(t), steps, i, k) && !steps[k].Advance?
    ensures var out := Exec(Start(t), steps).out; Genuine(Replay([], out[..i]), steps[k].net, out[i])
    decreases |steps|
  {
    var front, last := steps[..|steps| - 1], steps[|steps| - 1];
    var before, out := Exec(Start(t), front), Exec(Start(t), steps).out;
    if i < |before.out| {
      k := EverySendIsGenuine(limits, t, front, i);
      assert front[..k] == steps[..k] && front[..k + 1] == steps[..k + 1];
      assert out[..i] == before.out[..i];
    } else {
      k := |steps| - 1;
      assert steps[..k + 1] == steps;
      NextStepGenuine(limits, t, front, last);
      GenuineLater([], last.net, before.out, Apply(before.next, last).out, i);
    }
  }
}

/** Time bounds on requests and clients when ticks are at most an interval apart
    (src/domain/state.rs:105-161, src/domain/state.rs:168-191, src/domain/query_handlers.rs:104-132). */
module Timing {
  import opened Ids
  import opened Messages
  import opened QueryHandlers
  import opened StateMachine
  import opened Requests
  import opened Registry

  /** Nothing dates from the future, the last tick is at most an interval ago, and it left no old client or request. */
  ghost predicate Timely(limits: Limits, s: System) {
    && s.lastTick <= s.now <= s.lastTick + limits.interval
    && (forall c :: c in s.broker.connected ==>
          s.lastTick - limits.expiration <= s.broker.connected[c].lastSeen <= s.now)
    && (forall r :: r in s.broker.ongoing ==>
          s.lastTick - limits.timeout <= s.broker.ongoing[r].createdAt <= s.now)
  }

  ghost predicate Mentions(olds: seq<(ClientId, Tx)>, c: ClientId) {
    exists i :: 0 <= i < |olds| && olds[i].0 == c
  }

  /** A client that survives the probes keeps its channel, and was seen now if it was probed. */
  ghost predicate Survived(b: Broker, olds: seq<(ClientId, Tx)>, now: int, b': Broker, c: ClientId)
    requires c in b'.connected
  {
    && c in b.connected
    && b'.connected[c] == ClientInfo(b.connected[c].tx, if Mentions(olds, c) then now else b.connected[c].lastSeen)
  }

  lemma {:induction false} ProbeAllRefreshes(b: Broker, olds: seq<(ClientId, Tx)>, now: int, net: Net, c: ClientId)
    requires c in ProbeAll(b, olds, now, net).state.connected
    ensures Survived(b, olds, now, ProbeAll(b, olds, now, net).state, c)
  {
    if olds != [] {
      var front, last := olds[..|olds| - 1], olds[|olds| - 1];
      ProbeAllRefreshes(b, front, now, net, c);
      assert Mentions(olds, c) <==> Mentions(front, c) || last.0 == c by {
        if Mentions(front, c) {
          var i :| 0 <= i < |front| && front[i].0 == c;
          assert olds[i].0 == c;
        }
        if last.0 == c {
          assert olds[|olds| - 1].0 == c;
        }
      }
    }
  }

  lemma EnabledTickProbes(limits: Limits, s: System, step: Step, c: ClientId)
    requires step.Tick? && Enabled(limits, s, step) && c in s.broker.connected
    ensures Mentions(step.olds, c) <==> s.now - s.broker.connected[c].lastSeen > limits.expiration
  {
    var old' := OldClients(s.broker, s.now, limits.expiration);
    if Mentions(step.olds, c) {
      var i :| 0 <= i < |step.olds| && step.olds[i].0 == c;
      assert step.olds[i] in step.olds;
      assert step.olds[i] in old';
    }
    if s.now - s.broker.connected[c].lastSeen > limits.expiration {
      assert (c, s.broker.connected[c].tx) in old';
      assert (c, s.broker.connected[c].tx) in step.olds;
      var i :| 0 <= i < |step.olds| && step.olds[i] == (c, s.broker.connected[c].tx);
    }
  }

  /** A tick drops exactly the requests older than the timeout. */
  lemma TickDropsExpired(limits: Limits, s: System, step: Step)
    requires step.Tick? && Enabled(limits, s, step) && FiledUnderOwnId(s.broker.ongoing)
    ensures Apply(s, step).next.broker.ongoing ==
            map r | r in s.broker.ongoing && s.now - s.broker.ongoing[r].createdAt <= limits.timeout
                :: s.broker.ongoing[r]
  {
    ProbeAllKeepsRequests(s.broker, step.olds, s.now, step.net);
    EnabledTickLists(limits, s, step);
    ExpireAllRemoves(ProbeAll(s.broker, step.olds, s.now, step.net).state, step.expired, step.net);
  }

  lemma TickIsTimely(limits: Limits, s: System, step: Step)
    requires Timely(limits, s) && FiledUnderOwnId(s.broker.ongoing)
    requires step.Tick? && Enabled(limits, s, step)
    ensures Timely(limits, Apply(s, step).next)
  {
    var next, probed := Apply(s, step).next, ProbeAll(s.broker, step.olds, s.now, step.net).state;
    TickDropsExpired(limits, s, step);
    ExpireAllKeepsClients(probed, step.expired, step.net);
    forall c | c in next.broker.connected
      ensures next.lastTick - limits.expiration <= next.broker.connected[c].lastSeen <= next.now
    {
      ProbeAllRefreshes(s.broker, step.olds, s.now, step.net, c);
      EnabledTickProbes(limits, s, step, c);
    }
  }

  lemma {:induction false} StepIsTimely(limits: Limits, s: System, step: Step)
    requires Timely(limits, s) && FiledUnderOwnId(s.broker.ongoing) && Enabled(limits, s, step)
    ensures Timely(limits, Apply(s, step).next)
  {
    if step.Tick? {
      TickIsTimely(limits, s, step);
    } else if step.Receive? {
      HandleIsTimely(limits, s, step);
    }
  }

  /** What a message changes in the two tables dates from now. */
  lemma DispatchIsRecent(b: Broker, m: ClientMessage, now: int, net: Net, st: EventStore.Storage)
    ensures var b' := Dispatch(b, m, now, net, st).state;
            && (forall c :: c in b'.connected ==>
                  (c in b.connected && b'.connected[c] == b.connected[c]) || b'.connected[c].lastSeen == now)
            && (forall r :: r in b'.ongoing ==>
                  (r in b.ongoing && b'.ongoing[r] == b.ongoing[r]) || b'.ongoing[r].createdAt == now)
  {
    if m.QueryRequest? {
      RequestFrame(b, m, now, net);
    } else if m.QueryResponse? || m.QueryHandlingFailed? {
      AnswerFrame(b, m, now, net, st);
    } else if m.RegisterSourceEvent? {
      PublishFrame(b, m, net, st);
    }
  }

  lemma {:induction false} HandleIsTimely(limits: Limits, s: System, step: Step)
    requires Timely(limits, s) && step.Receive?
    ensures Timely(limits, Apply(s, step).next)
  {
    var b1 := Touch(s.broker, step.m.Source(), s.now);
    DispatchIsRecent(b1, step.m, s.now, step.net, step.st);
    var b2 := Apply(s, step).next.broker;
    assert b2 == Dispatch(b1, step.m, s.now, step.net, step.st).state;
    forall c | c in b2.connected ensures s.lastTick - limits.expiration <= b2.connected[c].lastSeen <= s.now {
      assert c in b1.connected ==> c in s.broker.connected;
    }
    forall r | r in b2.ongoing ensures s.lastTick - limits.timeout <= b2.ongoing[r].createdAt <= s.now {
    }
  }

  lemma {:induction false} RunIsTimely(limits: Limits, s: System, steps: seq<Step>)
    requires Timely(limits, s) && FiledUnderOwnId(s.broker.ongoing) && IsRun(limits, s, steps)
    ensures Timely(limits, Exec(s, steps).next)
    decreases |steps|
  {
    if steps != [] {
      var front := steps[..|steps| - 1];
      RunIsTimely(limits, s, front);
      TableFollowsTrace(limits, s, front);
      StepIsTimely(limits, Exec(s, front).next, steps[|steps| - 1]);
    }
  }

  /** No run gets stuck: any run can go on, by the background loop alone, until any later time. */
  lemma {:induction false} TimeGoesOn(limits: Limits, t: int, steps: seq<Step>, until: int, net: Net)
    returns (more: seq<Step>)
    requires IsRun(limits, Start(t), steps) && limits.interval > 0 && until >= Exec(Start(t), steps).next.now
    ensures IsRun(limits, Start(t), steps + more) && Exec(Start(t), steps + more).next.now == until
    ensures forall step :: step in more ==> step.Tick? || step.Advance?
    decreases until - Exec(Start(t), steps).next.now
  {
    if until == Exec(Start(t), steps).next.now {
      more := [];
      assert steps + more == steps;
    } else {
      more := TimeGoesOn(limits, t, steps, until - 1, net);
      var s := Exec(Start(t), steps + more).next;
      if until > s.lastTick + limits.interval {
        var olds := SomeListing(OldClients(s.broker, s.now, limits.expiration));
        var expired := SomeListing(ExpiredSet(s.broker.ongoing, s.now, limits.timeout));
        OneMoreStep(limits, Start(t), steps, more, Tick(olds, expired, net));
        more := more + [Tick(olds, expired, net)];
      }
      OneMoreStep(limits, Start(t), steps, more, Advance(1));
      more := more + [Advance(1)];
    }
  }

  lemma OneMoreStep(limits: Limits, s: System, steps: seq<Step>, more: seq<Step>, step: Step)
    requires IsRun(limits, s, steps + more) && Enabled(limits, Exec(s, steps + more).next, step)
    ensures IsRun(limits, s, steps + (more + [step]))
    ensures Exec(s, steps + (more + [step])).next == Apply(Exec(s, steps + more).next, step).next
  {
    assert (steps + (more + [step]))[..|steps + more|] == steps + more;
  }

  /** Bounded request lifetime: no ongoing request is ever older than the timeout plus the tick interval. */
  lemma {:induction false} RequestLifetimeBounded(limits: Limits, t: int, steps: seq<Step>, r: RequestId)
    requires IsRun(limits, Start(t), steps) && r in Exec(Start(t), steps).next.broker.ongoing
    ensures var s := Exec(Start(t), steps).next;
            0 <= s.now - s.broker.ongoing[r].createdAt <= limits.timeout + limits.interval
  {
    RunIsTimely(limits, Start(t), steps);
  }

  /** A QueryTimedOut is only sent by a tick, and only for a request strictly older than the timeout. */
  lemma TimeoutsAreLate(limits: Limits, s: System, step: Step, e: Event)
    requires Enabled(limits, s, step) && FiledUnderOwnId(s.broker.ongoing) && e in Apply(s, step).out
    requires e.Sent? && e.msg.QueryRequestedFailed? && e.msg.reason.QueryTimedOut?
    ensures step.Tick?
    ensures var r := e.msg.requestId; r in s.broker.ongoing && s.now - s.broker.ongoing[r].createdAt > limits.timeout
  {
    if step.Receive? {
      MessagesSayWhatTheyCarry(Touch(s.broker, step.m.Source(), s.now), step.m, s.now, step.net, step.st, e);
    } else if step.Tick? {
      var probed := ProbeAll(s.broker, step.olds, s.now, step.net);
      ProbesSay(s.broker, step.olds, s.now, step.net);
      EnabledTickLists(limits, s, step);
      TimeoutsAreExpired(probed.state, step.expired, step.net, e);
    } else if step.Broadcast? {
      BroadcastSays(s.broker, step.order, SourceEventBroadcast(s.broker.jobs[step.job]), step.net);
    }
  }

  lemma {:induction false} TimeoutsAreExpired(b: Broker, expired: seq<Ongoing>, net: Net, e: Event)
    requires e in ExpireAll(b, expired, net).out && e.Sent?
    ensures e.msg.QueryRequestedFailed? && e.msg.requestId in IdsOf(expired)
  {
    var front, last := expired[..|expired| - 1], expired[|expired| - 1];
    IdsOfAppend(front, last);
    assert expired == front + [last];
    if e in ExpireAll(b, front, net).out {
      TimeoutsAreExpired(b, front, net, e);
    }
  }

  /** Bounded staleness: every connected client was seen within the expiration plus the tick interval. */
  lemma StalenessBounded(limits: Limits, t: int, steps: seq<Step>, c: ClientId)
    requires IsRun(limits, Start(t), steps) && c in Exec(Start(t), steps).next.broker.connected
    ensures var s := Exec(Start(t), steps).next;
            0 <= s.now - s.broker.connected[c].lastSeen <= limits.expiration + limits.interval
  {
    RunIsTimely(limits, Start(t), steps);
  }

  /** A message moves the `last_seen` of its source, or of the client it registers, to now, and nobody else's. */
  lemma OnlyTheSourceIsSeen(b: Broker, m: ClientMessage, now: int, net: Net, st: EventStore.Storage, c: ClientId)
    requires c in HandleMessage(b, m, now, net, st).state.connected
    ensures HandleMessage(b, m, now, net, st).state.connected[c].lastSeen ==
            if m.Source() == Some(c) || c !in b.connected then now else b.connected[c].lastSeen
    ensures c in b.connected ==> HandleMessage(b, m, now, net, st).state.connected[c].tx == b.connected[c].tx
  {
    var b1 := Touch(b, m.Source(), now);
    assert b1.connected.Keys == b.connected.Keys;
    if !m.RegisterClient? && !m.DisconnectClient? {
      OthersKeepClients(b1, m, now, net, st);
    }
  }

  /** During the step `c` sends nothing and every send on its channel fails. */
  ghost predicate Silent(step: Step, c: ClientId, tx: Tx) {
    match step
    case Receive(m, net, _) => (m.Source() != Some(c) || m.DisconnectClient?) && forall msg :: !net(c, tx, msg)
    case Tick(_, _, net) => forall msg :: !net(c, tx, msg)
    case _ => true
  }

  /** Some session got `c` registered. */
  ghost predicate Readmitted(out: seq<Event>, c: ClientId) {
    exists i :: 0 <= i < |out| && out[i].Registered? && out[i].client == c
  }

  lemma SilentMessage(b: Broker, m: ClientMessage, now: int, net: Net, st: EventStore.Storage, c: ClientId)
    requires m.Source() != Some(c) || m.DisconnectClient?
    requires !Readmitted(HandleMessage(b, m, now, net, st).out, c)
    ensures var b' := HandleMessage(b, m, now, net, st).state;
            c in b'.connected ==> c in b.connected && b'.connected[c] == b.connected[c]
  {
    var b1 := Touch(b, m.Source(), now);
    if m.RegisterClient? {
      var out := HandleMessage(b, m, now, net, st).out;
      assert |out| == 2 ==> out[1].Registered? && out[1].client == m.client;
    } else if !m.DisconnectClient? {
      OthersKeepClients(b1, m, now, net, st);
    }
  }

  /** A silent client is either gone or exactly as it was. */
  lemma SilentStep(limits: Limits, s: System, step: Step, c: ClientId, tx: Tx)
    requires Silent(step, c, tx) && Enabled(limits, s, step) && !Readmitted(Apply(s, step).out, c)
    requires c in s.broker.connected ==> s.broker.connected[c].tx == tx
    ensures var next := Apply(s, step).next;
            c in next.broker.connected ==> c in s.broker.connected && next.broker.connected[c] == s.broker.connected[c]
  {
    var next := Apply(s, step).next;
    if step.Receive? {
      SilentMessage(s.broker, step.m, s.now, step.net, step.st, c);
    } else if step.Tick? {
      ExpireAllKeepsClients(ProbeAll(s.broker, step.olds, s.now, step.net).state, step.expired, step.net);
      if c in next.broker.connected {
        ProbeAllRefreshes(s.broker, step.olds, s.now, step.net, c);
        if Mentions(step.olds, c) {
          forall i | 0 <= i < |step.olds| && step.olds[i].0 == c ensures step.olds[i].1 == tx {
            assert step.olds[i] in step.olds;
          }
          UnreachableIsRemoved(s.broker, step.olds, s.now, step.net, c, tx);
        }
      }
    }
  }

  lemma {:induction false} UnreachableIsRemoved(b: Broker, olds: seq<(ClientId, Tx)>, now: int, net: Net,
                                                c: ClientId, tx: Tx)
    requires Mentions(olds, c) && forall msg :: !net(c, tx, msg)
    requires forall i :: 0 <= i < |olds| && olds[i].0 == c ==> olds[i].1 == tx
    ensures c !in ProbeAll(b, olds, now, net).state.connected
  {
    var front, last := olds[..|olds| - 1], olds[|olds| - 1];
    if last.0 != c {
      var i :| 0 <= i < |olds| && olds[i].0 == c;
      assert front[i].0 == c;
      UnreachableIsRemoved(b, front, now, net, c, tx);
    }
  }

  lemma ReadmittedLater(out: seq<Event>, more: seq<Event>, c: ClientId)
    ensures Readmitted(out + more, c) <==> Readmitted(out, c) || Readmitted(more, c)
  {
    if Readmitted(out, c) {
      var i :| 0 <= i < |out| && out[i].Registered? && out[i].client == c;
      assert (out + more)[i] == out[i];
    }
    if Readmitted(more, c) {
      var i :| 0 <= i < |more| && more[i].Registered? && more[i].client == c;
      assert (out + more)[|out| + i] == more[i];
    }
  }

  lemma {:induction false} SilentRun(limits: Limits, s: System, steps: seq<Step>, c: ClientId, tx: Tx)
    requires IsRun(limits, s, steps) && forall i :: 0 <= i < |steps| ==> Silent(steps[i], c, tx)
    requires !Readmitted(Exec(s, steps).out, c)
    requires c in s.broker.connected ==> s.broker.connected[c].tx == tx
    ensures var next := Exec(s, steps).next;
            c in next.broker.connected ==> c in s.broker.connected && next.broker.connected[c] == s.broker.connected[c]
    decreases |steps|
  {
    if steps != [] {
      var front, last := steps[..|steps| - 1], steps[|steps| - 1];
      var before := Exec(s, front);
      ReadmittedLater(before.out, Apply(before.next, last).out, c);
      SilentRun(limits, s, front, c, tx);
      SilentStep(limits, before.next, last, c, tx);
    }
  }

  /** A client whose channel is closed and who sends nothing is gone once the expiration and an interval have passed
      since it was last seen, unless another session got its id registered again. */
  lemma {:induction false} SilentClientIsRemoved(limits: Limits, t: int, before: seq<Step>, steps: seq<Step>,
                                                 c: ClientId)
    requires IsRun(limits, Start(t), before) && c in Exec(Start(t), before).next.broker.connected
    requires IsRun(limits, Exec(Start(t), before).next, steps)
    requires forall i :: 0 <= i < |steps| ==> Silent(steps[i], c, Exec(Start(t), before).next.broker.connected[c].tx)
    requires var s := Exec(Start(t), before).next;
             Exec(s, steps).next.now - s.broker.connected[c].lastSeen > limits.expiration + limits.interval
    ensures var s := Exec(Start(t), before).next;
            c !in Exec(s, steps).next.broker.connected || Readmitted(Exec(s, steps).out, c)
  {
    var s := Exec(Start(t), before).next;
    RunIsTimely(limits, Start(t), before);
    TableFollowsTrace(limits, Start(t), before);
    RunIsTimely(limits, s, steps);
    if !Readmitted(Exec(s, steps).out, c) {
      SilentRun(limits, s, steps, c, s.broker.connected[c].tx);
    }
  }
}

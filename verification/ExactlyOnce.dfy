/** Exactly one outcome per fresh request (src/domain/state.rs:140-159, src/domain/state.rs:227-430). */
module ExactlyOnce {
  import opened Ids
  import opened Messages
  import opened QueryHandlers
  import opened StateMachine
  import opened Requests
  import opened Registry
  import opened Timing

  /** In this step every send to `c` on `tx` succeeds. */
  ghost predicate SendsSucceed(step: Step, c: ClientId, tx: Tx) {
    match step
    case Receive(_, net, _) => forall msg :: net(c, tx, msg)
    case Tick(_, _, net) => forall msg :: net(c, tx, msg)
    case _ => true
  }

  /** `c` is connected throughout the run and every send to it succeeds. */
  ghost predicate Served(s: System, steps: seq<Step>, c: ClientId)
    decreases |steps|
  {
    && c in Exec(s, steps).next.broker.connected
    && (steps == [] ||
        var front := steps[..|steps| - 1];
        Served(s, front, c) && SendsSucceed(steps[|steps| - 1], c, Exec(s, front).next.broker.connected[c].tx))
  }

  /** A request with id `r` that is not a duplicate of an open one. */
  predicate IsFresh(b: Broker, step: Step, r: RequestId) {
    step.Receive? && step.m.QueryRequest? && step.m.requestId == r && r !in b.ongoing
  }

  /** The id is not used again for a new request. */
  ghost predicate NotReused(s: System, steps: seq<Step>, r: RequestId)
    decreases |steps|
  {
    steps == [] ||
    var front := steps[..|steps| - 1];
    NotReused(s, front, r) && !IsFresh(Exec(s, front).next.broker, steps[|steps| - 1], r)
  }

  /** Outcomes sent to `c` plus one if the request is still open. */
  ghost function Balance(c: ClientId, r: RequestId, b: Broker, out: seq<Event>): nat {
    Tally(OutcomesTo(c), r, out) + Bit(r in b.ongoing)
  }

  /** A fresh request either gets an outcome at once or becomes open, never both, never neither. */
  lemma {:induction false} FreshRequestBalances(b: Broker, regs: Registry, m: ClientMessage, now: int, net: Net)
    requires Reflects(b, regs) && m.QueryRequest? && m.requestId !in b.ongoing && m.requester in b.connected
    requires forall msg :: net(m.requester, b.connected[m.requester].tx, msg)
    ensures var r := Request(b, m, now, net);
            && Balance(m.requester, m.requestId, r.state, r.out) == 1
            && (m.requestId in r.state.ongoing ==> r.state.ongoing[m.requestId].requester == m.requester)
  {
    DeadBranches(b, regs, m.queryId);
    SelectionBalances(b, m, now, net);
  }

  lemma {:induction false} SelectionBalances(b: Broker, m: ClientMessage, now: int, net: Net)
    requires m.QueryRequest? && m.requestId !in b.ongoing && m.requester in b.connected
    requires forall msg :: net(m.requester, b.connected[m.requester].tx, msg)
    requires var selection := Select(b.handlers, b.cursor, m.queryId);
             !selection.ResponderNotFound? && (selection.Selected? ==> selection.client in b.connected)
    ensures var r := Request(b, m, now, net);
            && Balance(m.requester, m.requestId, r.state, r.out) == 1
            && (m.requestId in r.state.ongoing ==> r.state.ongoing[m.requestId].requester == m.requester)
  {
    var kind, selection := OutcomesTo(m.requester), Select(b.handlers, b.cursor, m.queryId);
    var refusal := Sent(m.requester, b.connected[m.requester].tx, NotFound(m), true);
    if selection.HandlerNotFound? {
      TallyOne(kind, m.requestId, refusal);
    } else {
      var responder := selection.client;
      var asked := Sent(responder, b.connected[responder].tx, Ask(m), Reaches(b, responder, Ask(m), net));
      if asked.ok {
        var recorded := Dispatched(Ongoing(m.requestId, m.queryId, m.parameters, m.requester, responder, now));
        TallyTwo(kind, m.requestId, asked, recorded);
        assert [asked] + [recorded] == [asked, recorded];
      } else {
        TallyTwo(kind, m.requestId, asked, refusal);
        assert [asked] + [refusal] == [asked, refusal];
      }
    }
  }

  /** A message that finds the request open answers it or leaves it open. */
  lemma OpenMessageBalances(b: Broker, m: ClientMessage, now: int, net: Net, st: EventStore.Storage, r: RequestId)
    requires r in b.ongoing && b.ongoing[r].requester in b.connected
    requires forall msg :: net(b.ongoing[r].requester, b.connected[b.ongoing[r].requester].tx, msg)
    ensures var h := Dispatch(b, m, now, net, st);
            && Balance(b.ongoing[r].requester, r, h.state, h.out) == 1
            && (r in h.state.ongoing ==> h.state.ongoing[r] == b.ongoing[r])
  {
    match m
    case QueryRequest(_, _, _, _) => OpenRequestBalances(b, m, now, net, r);
    case QueryResponse(_, _, _) => OpenAnswerBalances(b, m, now, net, st, r);
    case QueryHandlingFailed(_, _, _) => OpenAnswerBalances(b, m, now, net, st, r);
    case _ => SmallTally(OutcomesTo(b.ongoing[r].requester), r, Dispatch(b, m, now, net, st).out);
  }

  lemma OpenRequestBalances(b: Broker, m: ClientMessage, now: int, net: Net, r: RequestId)
    requires m.QueryRequest? && r in b.ongoing
    ensures var h := Request(b, m, now, net);
            && Tally(OutcomesTo(b.ongoing[r].requester), r, h.out) == 0
            && r in h.state.ongoing && h.state.ongoing[r] == b.ongoing[r]
  {
    RequestFrame(b, m, now, net);
    SmallTally(OutcomesTo(b.ongoing[r].requester), r, Request(b, m, now, net).out);
  }

  lemma OpenAnswerBalances(b: Broker, m: ClientMessage, now: int, net: Net, st: EventStore.Storage, r: RequestId)
    requires m.QueryResponse? || m.QueryHandlingFailed?
    requires r in b.ongoing && b.ongoing[r].requester in b.connected
    requires forall msg :: net(b.ongoing[r].requester, b.connected[b.ongoing[r].requester].tx, msg)
    ensures var h := Dispatch(b, m, now, net, st);
            && Balance(b.ongoing[r].requester, r, h.state, h.out) == 1
            && (r in h.state.ongoing ==> h.state.ongoing[r] == b.ongoing[r])
  {
    AnswerFrame(b, m, now, net, st);
    SmallTally(OutcomesTo(b.ongoing[r].requester), r, Dispatch(b, m, now, net, st).out);
  }

  /** A message that finds the request closed, and does not request it anew, says nothing about it. */
  lemma ClosedMessageIsQuiet(b: Broker, m: ClientMessage, now: int, net: Net, st: EventStore.Storage, r: RequestId,
                             c: ClientId)
    requires r !in b.ongoing && !(m.QueryRequest? && m.requestId == r)
    ensures Balance(c, r, Dispatch(b, m, now, net, st).state, Dispatch(b, m, now, net, st).out) == 0
  {
    if m.QueryRequest? {
      RequestFrame(b, m, now, net);
      SmallTally(OutcomesTo(c), r, Request(b, m, now, net).out);
    } else if m.QueryResponse? || m.QueryHandlingFailed? {
      AnswerFrame(b, m, now, net, st);
      SmallTally(OutcomesTo(c), r, Dispatch(b, m, now, net, st).out);
    } else {
      OthersKeepRequests(b, m, now, net, st);
      OthersAreNoOutcomes(b, m, now, net, st);
      UnrelatedTally(Dispatch(b, m, now, net, st).out, r, c);
    }
  }

  lemma OthersAreNoOutcomes(b: Broker, m: ClientMessage, now: int, net: Net, st: EventStore.Storage)
    requires !m.QueryRequest? && !m.QueryResponse? && !m.QueryHandlingFailed?
    ensures forall e :: e in Dispatch(b, m, now, net, st).out ==> !(e.Sent? && IsOutcome(e.msg))
  {
    if m.RegisterSourceEvent? {
      PublishFrame(b, m, net, st);
    }
  }

  lemma ExpireTally(b: Broker, o: Ongoing, net: Net, r: RequestId, c: ClientId)
    requires c in b.connected && forall msg :: net(c, b.connected[c].tx, msg)
    requires o.requestId == r ==> o.requester == c
    ensures Tally(OutcomesTo(c), r, Expire(b, o, net).out) == Bit(o.requestId == r)
  {
    SmallTally(OutcomesTo(c), r, Expire(b, o, net).out);
  }

  lemma {:induction false} ExpireAllTally(b: Broker, expired: seq<Ongoing>, net: Net, r: RequestId, c: ClientId)
    requires ListsOngoing(b.ongoing, expired) && c in b.connected && forall msg :: net(c, b.connected[c].tx, msg)
    requires r in b.ongoing && b.ongoing[r].requester == c
    ensures Tally(OutcomesTo(c), r, ExpireAll(b, expired, net).out) == Bit(r in IdsOf(expired))
  {
    if expired != [] {
      var front, last := expired[..|expired| - 1], expired[|expired| - 1];
      ExpireAllTally(b, front, net, r, c);
      ExpireAllKeepsClients(b, front, net);
      IdsOfAppend(front, last);
      assert expired == front + [last];
      assert last.requestId !in IdsOf(front);
      var before := ExpireAll(b, front, net);
      ExpireTally(before.state, last, net, r, c);
      TallyAppend(OutcomesTo(c), r, before.out, Expire(before.state, last, net).out);
    }
  }

  lemma UnrelatedTally(out: seq<Event>, r: RequestId, c: ClientId)
    requires forall e :: e in out ==> !(e.Sent? && IsOutcome(e.msg))
    ensures Tally(OutcomesTo(c), r, out) == 0
  {
    TallyNone(OutcomesTo(c), r, out);
  }

  /** The probes of a tick send no outcome. */
  lemma ProbesSendNoOutcome(b: Broker, olds: seq<(ClientId, Tx)>, now: int, net: Net, r: RequestId, c: ClientId)
    ensures Tally(OutcomesTo(c), r, ProbeAll(b, olds, now, net).out) == 0
  {
    ProbesSay(b, olds, now, net);
    UnrelatedTally(ProbeAll(b, olds, now, net).out, r, c);
  }

  lemma OpenTickBalances(limits: Limits, s: System, step: Step, r: RequestId, c: ClientId)
    requires step.Tick? && Enabled(limits, s, step) && FiledUnderOwnId(s.broker.ongoing)
    requires r in s.broker.ongoing && s.broker.ongoing[r].requester == c && c in s.broker.connected
    requires forall msg :: step.net(c, s.broker.connected[c].tx, msg)
    requires c in Apply(s, step).next.broker.connected
    ensures Tally(OutcomesTo(c), r, Apply(s, step).out) == Bit(r in IdsOf(step.expired))
  {
    var probed := ProbeAll(s.broker, step.olds, s.now, step.net);
    ProbesSendNoOutcome(s.broker, step.olds, s.now, step.net, r, c);
    OpenExpiryBalances(limits, s, step, r, c);
    TallyAppend(OutcomesTo(c), r, probed.out, ExpireAll(probed.state, step.expired, step.net).out);
  }

  lemma OpenExpiryBalances(limits: Limits, s: System, step: Step, r: RequestId, c: ClientId)
    requires step.Tick? && Enabled(limits, s, step) && FiledUnderOwnId(s.broker.ongoing)
    requires r in s.broker.ongoing && s.broker.ongoing[r].requester == c && c in s.broker.connected
    requires forall msg :: step.net(c, s.broker.connected[c].tx, msg)
    requires c in Apply(s, step).next.broker.connected
    ensures var probed := ProbeAll(s.broker, step.olds, s.now, step.net);
            Tally(OutcomesTo(c), r, ExpireAll(probed.state, step.expired, step.net).out)
                == Bit(r in IdsOf(step.expired))
  {
    var probed := ProbeAll(s.broker, step.olds, s.now, step.net);
    ProbeAllKeepsRequests(s.broker, step.olds, s.now, step.net);
    ExpireAllKeepsClients(probed.state, step.expired, step.net);
    ProbeAllRefreshes(s.broker, step.olds, s.now, step.net, c);
    EnabledTickLists(limits, s, step);
    ExpireAllTally(probed.state, step.expired, step.net, r, c);
  }

  /** A step that finds the request open, with its requester connected and reachable, sends one outcome and closes it,
      or sends none and leaves it open. */
  lemma OpenStepBalances(limits: Limits, s: System, step: Step, r: RequestId, c: ClientId)
    requires Enabled(limits, s, step) && FiledUnderOwnId(s.broker.ongoing)
    requires r in s.broker.ongoing && s.broker.ongoing[r].requester == c && c in s.broker.connected
    requires SendsSucceed(step, c, s.broker.connected[c].tx)
    requires c in Apply(s, step).next.broker.connected
    ensures var a := Apply(s, step);
            && Balance(c, r, a.next.broker, a.out) == 1
            && (r in a.next.broker.ongoing ==> a.next.broker.ongoing[r] == s.broker.ongoing[r])
  {
    match step
    case Receive(m, net, st) => OpenMessageBalances(Touch(s.broker, m.Source(), s.now), m, s.now, net, st, r);
    case Tick(olds, expired, net) =>
      OpenTickBalances(limits, s, step, r, c);
      EnabledTickLists(limits, s, step);
      TickDropsExpired(limits, s, step);
    case Broadcast(job, order, net) =>
      BroadcastSays(s.broker, order, SourceEventBroadcast(s.broker.jobs[job]), net);
      UnrelatedTally(Apply(s, step).out, r, c);
    case Advance(_) =>
  }

  lemma ClosedTickIsQuiet(limits: Limits, s: System, step: Step, r: RequestId, c: ClientId)
    requires step.Tick? && Enabled(limits, s, step) && FiledUnderOwnId(s.broker.ongoing) && r !in s.broker.ongoing
    ensures Tally(OutcomesTo(c), r, Apply(s, step).out) == 0
  {
    var probed := ProbeAll(s.broker, step.olds, s.now, step.net);
    var expired := ExpireAll(probed.state, step.expired, step.net);
    ProbesSay(s.broker, step.olds, s.now, step.net);
    UnrelatedTally(probed.out, r, c);
    EnabledTickLists(limits, s, step);
    forall i | 0 <= i < |expired.out| ensures !Is(OutcomesTo(c), r, expired.out[i]) {
      if expired.out[i].Sent? {
        TimeoutsAreExpired(probed.state, step.expired, step.net, expired.out[i]);
      }
    }
    TallyNone(OutcomesTo(c), r, expired.out);
    TallyAppend(OutcomesTo(c), r, probed.out, expired.out);
  }

  /** A step that finds the request closed, and is not a new request for it, says nothing about it. */
  lemma ClosedStepIsQuiet(limits: Limits, s: System, step: Step, r: RequestId, c: ClientId)
    requires Enabled(limits, s, step) && FiledUnderOwnId(s.broker.ongoing)
    requires r !in s.broker.ongoing && !IsFresh(s.broker, step, r)
    ensures Balance(c, r, Apply(s, step).next.broker, Apply(s, step).out) == 0
  {
    match step
    case Receive(m, net, st) => ClosedMessageIsQuiet(Touch(s.broker, m.Source(), s.now), m, s.now, net, st, r, c);
    case Tick(_, _, _) =>
      TickDropsExpired(limits, s, step);
      ClosedTickIsQuiet(limits, s, step, r, c);
    case Broadcast(job, order, net) =>
      BroadcastSays(s.broker, order, SourceEventBroadcast(s.broker.jobs[job]), net);
      UnrelatedTally(Apply(s, step).out, r, c);
    case Advance(_) =>
  }

  /** Along a run, the balance of a request that is not reused stays what it was. */
  lemma {:induction false} RunKeepsBalance(limits: Limits, s: System, steps: seq<Step>, r: RequestId, c: ClientId)
    requires IsRun(limits, s, steps) && FiledUnderOwnId(s.broker.ongoing)
    requires r in s.broker.ongoing ==> s.broker.ongoing[r].requester == c
    requires Served(s, steps, c) && NotReused(s, steps, r)
    ensures Balance(c, r, Exec(s, steps).next.broker, Exec(s, steps).out) == Bit(r in s.broker.ongoing)
    ensures r in Exec(s, steps).next.broker.ongoing ==>
              r in s.broker.ongoing && Exec(s, steps).next.broker.ongoing[r] == s.broker.ongoing[r]
    decreases |steps|
  {
    if steps != [] {
      var front, last := steps[..|steps| - 1], steps[|steps| - 1];
      RunKeepsBalance(limits, s, front, r, c);
      TableFollowsTrace(limits, s, front);
      var before := Exec(s, front);
      TallyAppend(OutcomesTo(c), r, before.out, Apply(before.next, last).out);
      if r in before.next.broker.ongoing {
        OpenStepBalances(limits, before.next, last, r, c);
      } else {
        ClosedStepIsQuiet(limits, before.next, last, r, c);
      }
    }
  }

  /** The fresh request as the broker handles it, its sender being marked as seen first. */
  lemma {:induction false} FreshHandled(s: System, regs: Registry, m: ClientMessage, net: Net, st: EventStore.Storage)
    requires Reflects(s.broker, regs) && m.QueryRequest? && m.requestId !in s.broker.ongoing
    requires m.requester in s.broker.connected
             && forall msg :: net(m.requester, s.broker.connected[m.requester].tx, msg)
    ensures var a := Apply(s, Receive(m, net, st));
            && Balance(m.requester, m.requestId, a.next.broker, a.out) == 1
            && (m.requestId in a.next.broker.ongoing ==>
                  a.next.broker.ongoing[m.requestId].requester == m.requester
                  && a.next.broker.ongoing[m.requestId].createdAt == s.now)
  {
    var b1 := Touch(s.broker, m.Source(), s.now);
    TouchReflects(s.broker, regs, m.Source(), s.now);
    FreshRequestBalances(b1, regs, m, s.now, net);
    FreshRequestIsDated(b1, m, s.now, net);
  }

  /** A fresh request that is recorded is recorded as its sender's, now. */
  lemma FreshRequestIsDated(b: Broker, m: ClientMessage, now: int, net: Net)
    requires m.QueryRequest? && m.requestId !in b.ongoing
    ensures var after := Request(b, m, now, net).state.ongoing;
            m.requestId in after ==> after[m.requestId].requester == m.requester && after[m.requestId].createdAt == now
  {
  }

  /** From a broker whose tables are in order: the fresh request's outcomes plus one if it is still open make one,
      and an open request is still the one recorded at the start. */
  lemma {:induction false} OneOutcomeFrom(limits: Limits, s: System, regs: Registry, m: ClientMessage, net: Net,
                                          st: EventStore.Storage, steps: seq<Step>)
    requires Reflects(s.broker, regs) && FiledUnderOwnId(s.broker.ongoing)
    requires m.QueryRequest? && m.requestId !in s.broker.ongoing && m.requester in s.broker.connected
    requires SendsSucceed(Receive(m, net, st), m.requester, s.broker.connected[m.requester].tx)
    requires var s1 := Apply(s, Receive(m, net, st)).next;
             IsRun(limits, s1, steps) && Served(s1, steps, m.requester) && NotReused(s1, steps, m.requestId)
    ensures var first := Apply(s, Receive(m, net, st));
            var rest := Exec(first.next, steps);
            && Balance(m.requester, m.requestId, rest.next.broker, first.out + rest.out) == 1
            && (m.requestId in rest.next.broker.ongoing ==> rest.next.broker.ongoing[m.requestId].createdAt == s.now)
  {
    var step := Receive(m, net, st);
    var first := Apply(s, step);
    FreshHandled(s, regs, m, net, st);
    StepAccounts(limits, s, step);
    RunKeepsBalance(limits, first.next, steps, m.requestId, m.requester);
    TallyAppend(OutcomesTo(m.requester), m.requestId, first.out, Exec(first.next, steps).out);
  }

  /** What every reachable broker satisfies. */
  lemma {:induction false} ReachableIsInOrder(limits: Limits, t: int, before: seq<Step>) returns (regs: Registry)
    requires IsRun(limits, Start(t), before)
    ensures var s := Exec(Start(t), before).next;
            Reflects(s.broker, regs) && FiledUnderOwnId(s.broker.ongoing) && Timely(limits, s)
  {
    StartReflects(t);
    IndexRefinesRegistrations(Start(t), [], before);
    TableFollowsTrace(limits, Start(t), before);
    RunIsTimely(limits, Start(t), before);
    regs := Replay([], Exec(Start(t), before).out);
  }

  lemma {:induction false} TimelyAfter(limits: Limits, s: System, m: ClientMessage, net: Net, st: EventStore.Storage,
                                       steps: seq<Step>)
    requires Timely(limits, s) && FiledUnderOwnId(s.broker.ongoing)
             && IsRun(limits, Apply(s, Receive(m, net, st)).next, steps)
    ensures Timely(limits, Exec(Apply(s, Receive(m, net, st)).next, steps).next)
  {
    StepIsTimely(limits, s, Receive(m, net, st));
    StepAccounts(limits, s, Receive(m, net, st));
    RunIsTimely(limits, Apply(s, Receive(m, net, st)).next, steps);
  }

  /** Exactly one outcome: take any reachable broker, a fresh request from a connected client, and any run after it in
      which that client stays connected, sends to it succeed and the id is not reused. The client has been sent
      exactly one final word on the request, or the request is still open; and once the timeout and a tick interval
      have passed it has been sent exactly one. */
  lemma {:induction false} ExactlyOneOutcome(limits: Limits, t: int, before: seq<Step>, m: ClientMessage, net: Net,
                                             st: EventStore.Storage, steps: seq<Step>)
    requires IsRun(limits, Start(t), before)
    requires m.QueryRequest? && m.requestId !in Exec(Start(t), before).next.broker.ongoing
    requires m.requester in Exec(Start(t), before).next.broker.connected
    requires SendsSucceed(Receive(m, net, st), m.requester,
             Exec(Start(t), before).next.broker.connected[m.requester].tx)
    requires var s1 := Apply(Exec(Start(t), before).next, Receive(m, net, st)).next;
             IsRun(limits, s1, steps) && Served(s1, steps, m.requester) && NotReused(s1, steps, m.requestId)
    ensures var s := Exec(Start(t), before).next;
            var first := Apply(s, Receive(m, net, st));
            var rest := Exec(first.next, steps);
            && Balance(m.requester, m.requestId, rest.next.broker, first.out + rest.out) == 1
            && (rest.next.now > s.now + limits.timeout + limits.interval ==>
                  Tally(OutcomesTo(m.requester), m.requestId, first.out + rest.out) == 1)
  {
    var regs := ReachableIsInOrder(limits, t, before);
    OneOutcomeFrom(limits, Exec(Start(t), before).next, regs, m, net, st, steps);
    TimelyAfter(limits, Exec(Start(t), before).next, m, net, st, steps);
  }
}

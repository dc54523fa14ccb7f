/** The ongoing requests as a function of the trace: conservation and causal routing
    (src/domain/state.rs:227-430, src/domain/state.rs:467-476, src/domain/query_handlers.rs:93-132). */
module Requests {
  import opened Ids
  import opened Messages
  import opened QueryHandlers
  import opened StateMachine

  /** Delivering one of these closes the request. */
  predicate Closes(msg: ServerMessage) {
    msg.QueryResponded? || (msg.QueryRequestedFailed? && msg.reason.HandlingError?)
  }

  /** One of these is only ever sent for an open request. */
  predicate Answers(msg: ServerMessage) {
    Closes(msg) || (msg.QueryRequestedFailed? && msg.reason.QueryTimedOut?)
  }

  // ---------- the open requests, read off the trace ----------

  function Track(open: OngoingRequests, e: Event): OngoingRequests {
    match e
    case Dispatched(o) => open[o.requestId := o]
    case TimedOut(r, _) => open - {r}
    case Sent(_, _, msg, ok) => if ok && Closes(msg) then open - {msg.requestId} else open
    case Registered(_, _, _) => open
    case Disconnected(_) => open
  }

  function TrackAll(open: OngoingRequests, out: seq<Event>): OngoingRequests {
    if out == [] then open else Track(TrackAll(open, out[..|out| - 1]), out[|out| - 1])
  }

  /** What may happen next given the open requests: no dispatch of an open id; answers and timeouts only for
      an open id, and answers only to the client that requested it, about its query. */
  predicate Allowed(open: OngoingRequests, e: Event) {
    match e
    case Dispatched(o) => o.requestId !in open
    case TimedOut(r, q) => r in open && open[r].queryId == q
    case Sent(to, _, msg, _) =>
      && (msg.QueryRequested? ==> msg.requestId !in open)
      && (Answers(msg) ==>
            && msg.requestId in open && open[msg.requestId].requester == to
            && (msg.QueryRequestedFailed? ==> msg.queryId == open[msg.requestId].queryId))
    case Registered(_, _, _) => true
    case Disconnected(_) => true
  }

  predicate AllAllowed(open: OngoingRequests, out: seq<Event>) {
    out == [] ||
    (AllAllowed(open, out[..|out| - 1]) && Allowed(TrackAll(open, out[..|out| - 1]), out[|out| - 1]))
  }

  lemma {:induction false} TrackAppend(open: OngoingRequests, out: seq<Event>, more: seq<Event>)
    ensures TrackAll(open, out + more) == TrackAll(TrackAll(open, out), more)
    ensures AllAllowed(open, out + more) <==> AllAllowed(open, out) && AllAllowed(TrackAll(open, out), more)
  {
    if more == [] {
      assert out + more == out;
    } else {
      assert (out + more)[..|out + more| - 1] == out + more[..|more| - 1];
      TrackAppend(open, out, more[..|more| - 1]);
    }
  }

  lemma TrackOne(open: OngoingRequests, e: Event)
    ensures TrackAll(open, [e]) == Track(open, e)
    ensures AllAllowed(open, [e]) <==> Allowed(open, e)
  {
    assert [e][..0] == [];
  }

  /** Events that say nothing about requests. */
  ghost predicate Unrelated(out: seq<Event>) {
    forall i :: 0 <= i < |out| ==>
      && !out[i].Dispatched? && !out[i].TimedOut?
      && (out[i].Sent? ==> !Answers(out[i].msg) && !out[i].msg.QueryRequested?)
  }

  lemma {:induction false} TrackUnrelated(open: OngoingRequests, out: seq<Event>)
    requires Unrelated(out)
    ensures TrackAll(open, out) == open && AllAllowed(open, out)
  {
    if out != [] {
      TrackUnrelated(open, out[..|out| - 1]);
    }
  }

  // ---------- each operation ----------

  /** `r` behaves as the request table says: its events are allowed and account for its new table. */
  ghost predicate Accounts(b: Broker, r: Outcome) {
    AllAllowed(b.ongoing, r.out) && TrackAll(b.ongoing, r.out) == r.state.ongoing
  }

  lemma RefusalAccounts(b: Broker, state: Broker, out: seq<Event>)
    requires state.ongoing == b.ongoing && Unrelated(out)
    ensures Accounts(b, Outcome(state, out))
  {
    TrackUnrelated(b.ongoing, out);
  }

  lemma FailedAskAccounts(b: Broker, m: ClientMessage, c: ClientId, state: Broker, net: Net)
    requires m.QueryRequest? && m.requestId !in b.ongoing && c in b.connected && state.ongoing == b.ongoing
    ensures Accounts(b, Outcome(state, Notify(b, c, Ask(m), net) + Notify(b, m.requester, NotFound(m), net)))
  {
    TrackOne(b.ongoing, Notify(b, c, Ask(m), net)[0]);
    TrackUnrelated(b.ongoing, Notify(b, m.requester, NotFound(m), net));
    TrackAppend(b.ongoing, Notify(b, c, Ask(m), net), Notify(b, m.requester, NotFound(m), net));
  }

  lemma AskAccounts(b: Broker, m: ClientMessage, o: Ongoing, state: Broker, net: Net)
    requires m.QueryRequest? && m.requestId !in b.ongoing && o.requestId == m.requestId && o.responder in b.connected
    requires state.ongoing == b.ongoing[m.requestId := o]
    ensures Accounts(b, Outcome(state, Notify(b, o.responder, Ask(m), net) + [Dispatched(o)]))
  {
    TrackOne(b.ongoing, Notify(b, o.responder, Ask(m), net)[0]);
    TrackOne(b.ongoing, Dispatched(o));
    TrackAppend(b.ongoing, Notify(b, o.responder, Ask(m), net), [Dispatched(o)]);
  }

  lemma RequestAccounts(b: Broker, m: ClientMessage, now: int, net: Net)
    requires m.QueryRequest?
    ensures Accounts(b, Request(b, m, now, net))
  {
    var r, selection := Request(b, m, now, net), Select(b.handlers, b.cursor, m.queryId);
    if m.requestId in b.ongoing || !selection.Selected? || selection.client !in b.connected {
      RefusalAccounts(b, r.state, r.out);
    } else if Reaches(b, selection.client, Ask(m), net) {
      var o := Ongoing(m.requestId, m.queryId, m.parameters, m.requester, selection.client, now);
      AskAccounts(b, m, o, r.state, net);
    } else {
      FailedAskAccounts(b, m, selection.client, r.state, net);
    }
  }

  lemma CloseAccounts(b: Broker, r: RequestId, msg: ServerMessage, net: Net)
    requires r in b.ongoing && Closes(msg) && msg.requestId == r
    requires msg.QueryRequestedFailed? ==> msg.queryId == b.ongoing[r].queryId
    ensures Accounts(b, Close(b, r, msg, net))
  {
    var c := Close(b, r, msg, net);
    if c.out != [] {
      TrackOne(b.ongoing, c.out[0]);
      assert c.out == [c.out[0]];
    }
  }

  lemma AnswerAccounts(b: Broker, m: ClientMessage, now: int, net: Net, st: EventStore.Storage)
    requires m.QueryResponse? || m.QueryHandlingFailed?
    ensures Accounts(b, Dispatch(b, m, now, net, st))
  {
    if m.requestId in b.ongoing {
      var msg := if m.QueryResponse? then QueryResponded(m.requestId, m.result)
      else QueryRequestedFailed(m.requestId, b.ongoing[m.requestId].queryId, HandlingError(m.reason));
      CloseAccounts(b, m.requestId, msg, net);
    }
  }

  /** Registrations, publications, heartbeats and disconnections have nothing to do with requests. */
  lemma OthersKeepRequests(b: Broker, m: ClientMessage, now: int, net: Net, st: EventStore.Storage)
    requires !m.QueryRequest? && !m.QueryResponse? && !m.QueryHandlingFailed?
    ensures Unrelated(Dispatch(b, m, now, net, st).out) && Dispatch(b, m, now, net, st).state.ongoing == b.ongoing
  {
    if m.RegisterSourceEvent? {
      PublishFrame(b, m, net, st);
    }
  }

  lemma {:induction false} DispatchAccounts(b: Broker, m: ClientMessage, now: int, net: Net, st: EventStore.Storage)
    ensures Accounts(b, Dispatch(b, m, now, net, st))
  {
    if m.QueryRequest? {
      RequestAccounts(b, m, now, net);
    } else if m.QueryResponse? || m.QueryHandlingFailed? {
      AnswerAccounts(b, m, now, net, st);
    } else {
      OthersKeepRequests(b, m, now, net, st);
      TrackUnrelated(b.ongoing, Dispatch(b, m, now, net, st).out);
    }
  }

  lemma DispatchKeepsFiling(b: Broker, m: ClientMessage, now: int, net: Net, st: EventStore.Storage)
    requires FiledUnderOwnId(b.ongoing)
    ensures FiledUnderOwnId(Dispatch(b, m, now, net, st).state.ongoing)
  {
    if !m.QueryRequest? && !m.QueryResponse? && !m.QueryHandlingFailed? {
      OthersKeepRequests(b, m, now, net, st);
    }
  }

  ghost function IdsOf(expired: seq<Ongoing>): set<RequestId> {
    set i | 0 <= i < |expired| :: expired[i].requestId
  }

  /** `expired` lists requests of the table, each once. */
  ghost predicate ListsOngoing(ongoing: OngoingRequests, expired: seq<Ongoing>) {
    && (forall i :: 0 <= i < |expired| ==>
          expired[i].requestId in ongoing && ongoing[expired[i].requestId] == expired[i])
    && (forall i, j :: 0 <= i < j < |expired| ==> expired[i].requestId != expired[j].requestId)
  }

  lemma ExpireAccounts(b: Broker, o: Ongoing, net: Net)
    requires o.requestId in b.ongoing && b.ongoing[o.requestId] == o
    ensures Accounts(b, Expire(b, o, net))
  {
    var told := Notify(b, o.requester, QueryRequestedFailed(o.requestId, o.queryId, QueryTimedOut), net);
    if told != [] {
      TrackOne(b.ongoing, told[0]);
      assert told == [told[0]];
    }
    TrackOne(b.ongoing, TimedOut(o.requestId, o.queryId));
    TrackAppend(b.ongoing, told, [TimedOut(o.requestId, o.queryId)]);
  }

  lemma IdsOfAppend(expired: seq<Ongoing>, last: Ongoing)
    ensures IdsOf(expired + [last]) == IdsOf(expired) + {last.requestId}
  {
    assert (expired + [last])[|expired|] == last;
    forall i | 0 <= i < |expired| ensures expired[i].requestId in IdsOf(expired + [last]) {
      assert (expired + [last])[i] == expired[i];
    }
  }

  lemma {:induction false} ExpireAllRemoves(b: Broker, expired: seq<Ongoing>, net: Net)
    ensures ExpireAll(b, expired, net).state.ongoing == b.ongoing - IdsOf(expired)
  {
    if expired == [] {
      assert IdsOf(expired) == {};
    } else {
      var front, last := expired[..|expired| - 1], expired[|expired| - 1];
      ExpireAllRemoves(b, front, net);
      IdsOfAppend(front, last);
      assert expired == front + [last];
    }
  }

  lemma OutcomesChain(b: Broker, first: Outcome, second: Outcome)
    requires Accounts(b, first) && Accounts(first.state, second)
    ensures Accounts(b, Outcome(second.state, first.out + second.out))
  {
    TrackAppend(b.ongoing, first.out, second.out);
  }

  lemma {:induction false} ExpireAllAccounts(b: Broker, expired: seq<Ongoing>, net: Net)
    requires ListsOngoing(b.ongoing, expired)
    ensures Accounts(b, ExpireAll(b, expired, net))
  {
    if expired != [] {
      var front, last := expired[..|expired| - 1], expired[|expired| - 1];
      ExpireAllAccounts(b, front, net);
      ExpireAllRemoves(b, front, net);
      assert last.requestId !in IdsOf(front);
      var before := ExpireAll(b, front, net);
      ExpireAccounts(before.state, last, net);
      OutcomesChain(b, before, Expire(before.state, last, net));
    }
  }

  /** The expired list of an enabled tick lists requests of the table, each once. */
  lemma EnabledTickLists(limits: Limits, s: System, step: Step)
    requires step.Tick? && Enabled(limits, s, step) && FiledUnderOwnId(s.broker.ongoing)
    ensures ListsOngoing(s.broker.ongoing, step.expired)
    ensures IdsOf(step.expired) == set r | r in s.broker.ongoing
            && s.now - s.broker.ongoing[r].createdAt > limits.timeout
  {
    var ongoing, expired := s.broker.ongoing, step.expired;
    forall i | 0 <= i < |expired|
      ensures expired[i].requestId in ongoing && ongoing[expired[i].requestId] == expired[i]
    {
      assert expired[i] in expired;
    }
    forall r | r in ongoing && s.now - ongoing[r].createdAt > limits.timeout ensures r in IdsOf(expired) {
      assert ongoing[r] in expired;
      var i :| 0 <= i < |expired| && expired[i] == ongoing[r];
      assert expired[i].requestId == r;
    }
    forall r | r in IdsOf(expired) ensures r in ongoing && s.now - ongoing[r].createdAt > limits.timeout {
      var i :| 0 <= i < |expired| && expired[i].requestId == r;
      assert expired[i] in expired;
    }
  }

  lemma StepAccounts(limits: Limits, s: System, step: Step)
    requires Enabled(limits, s, step) && FiledUnderOwnId(s.broker.ongoing)
    ensures var r := Apply(s, step);
            && Accounts(s.broker, Outcome(r.next.broker, r.out))
            && FiledUnderOwnId(r.next.broker.ongoing)
  {
    match step
    case Receive(m, net, st) =>
      DispatchAccounts(Touch(s.broker, m.Source(), s.now), m, s.now, net, st);
      DispatchKeepsFiling(Touch(s.broker, m.Source(), s.now), m, s.now, net, st);
    case Tick(olds, expired, net) =>
      var probed := ProbeAll(s.broker, olds, s.now, net);
      ProbesSay(s.broker, olds, s.now, net);
      ProbeAllKeepsRequests(s.broker, olds, s.now, net);
      TrackUnrelated(s.broker.ongoing, probed.out);
      EnabledTickLists(limits, s, step);
      ExpireAllRemoves(probed.state, expired, net);
      ExpireAllAccounts(probed.state, expired, net);
      TrackAppend(s.broker.ongoing, probed.out, ExpireAll(probed.state, expired, net).out);
    case Broadcast(job, order, net) =>
      BroadcastSays(s.broker, order, SourceEventBroadcast(s.broker.jobs[job]), net);
      TrackUnrelated(s.broker.ongoing, Apply(s, step).out);
    case Advance(_) =>
  }

  /** In every run the trace determines the request table, and every event in it was allowed when it happened:
      an open id is never dispatched again, and answers go to the requester of the open request. */
  lemma {:induction false} TableFollowsTrace(limits: Limits, s: System, steps: seq<Step>)
    requires IsRun(limits, s, steps) && FiledUnderOwnId(s.broker.ongoing)
    ensures var r := Exec(s, steps);
            && AllAllowed(s.broker.ongoing, r.out) && TrackAll(s.broker.ongoing, r.out) == r.next.broker.ongoing
            && FiledUnderOwnId(r.next.broker.ongoing)
    decreases |steps|
  {
    if steps != [] {
      var front, last := steps[..|steps| - 1], steps[|steps| - 1];
      TableFollowsTrace(limits, s, front);
      var before := Exec(s, front);
      StepAccounts(limits, before.next, last);
      TrackAppend(s.broker.ongoing, before.out, Apply(before.next, last).out);
    }
  }

  // ---------- conservation ----------

  datatype Kind =
    | Asked            // the responder was sent the request
    | Dispatches       // the request was recorded
    | Responses        // a response was delivered
    | HandlingErrors   // a handling error was delivered
    | Timeouts         // the request was dropped by a tick
    | OutcomesTo(c: ClientId)  // `c` was sent a final word on the request

  predicate IsOutcome(msg: ServerMessage) {
    Answers(msg) || (msg.QueryRequestedFailed? && msg.reason.QueryHandlerNotFound?)
  }

  predicate Is(k: Kind, r: RequestId, e: Event) {
    match k
    case Asked => e.Sent? && e.ok && e.msg.QueryRequested? && e.msg.requestId == r
    case Dispatches => e.Dispatched? && e.request.requestId == r
    case Responses => e.Sent? && e.ok && e.msg.QueryResponded? && e.msg.requestId == r
    case HandlingErrors => e.Sent? && e.ok && e.msg.QueryRequestedFailed? && e.msg.reason.HandlingError?
        && e.msg.requestId == r
    case Timeouts => e.TimedOut? && e.requestId == r
    case OutcomesTo(c) => e.Sent? && e.ok && e.to == c && IsOutcome(e.msg) && e.msg.requestId == r
  }

  function Tally(k: Kind, r: RequestId, out: seq<Event>): nat {
    if out == [] then 0
    else Tally(k, r, out[..|out| - 1]) + if Is(k, r, out[|out| - 1]) then 1 else 0
  }

  lemma {:induction false} TallyAppend(k: Kind, r: RequestId, out: seq<Event>, more: seq<Event>)
    ensures Tally(k, r, out + more) == Tally(k, r, out) + Tally(k, r, more)
  {
    if more == [] {
      assert out + more == out;
    } else {
      assert (out + more)[..|out + more| - 1] == out + more[..|more| - 1];
      TallyAppend(k, r, out, more[..|more| - 1]);
    }
  }

  lemma {:induction false} TallyNone(k: Kind, r: RequestId, out: seq<Event>)
    requires forall i :: 0 <= i < |out| ==> !Is(k, r, out[i])
    ensures Tally(k, r, out) == 0
  {
    if out != [] {
      TallyNone(k, r, out[..|out| - 1]);
    }
  }

  function Bit(b: bool): nat { if b then 1 else 0 }

  /** An allowed trace balances: what was open or dispatched is closed or still open. */
  lemma {:induction false} AllowedBalances(open: OngoingRequests, out: seq<Event>, r: RequestId)
    requires AllAllowed(open, out)
    ensures Bit(r in open) + Tally(Dispatches, r, out)
         == Tally(Responses, r, out) + Tally(HandlingErrors, r, out) + Tally(Timeouts, r, out)
             + Bit(r in TrackAll(open, out))
  {
    if out != [] {
      AllowedBalances(open, out[..|out| - 1], r);
    }
  }

  /** Conservation: in every run from a fresh broker and for every request id, dispatches equal delivered responses
      plus delivered handling errors plus timeouts plus one if the id is ongoing; and every dispatch is a delivered
      request. */
  lemma Conservation(limits: Limits, t: int, steps: seq<Step>, r: RequestId)
    requires IsRun(limits, Start(t), steps)
    ensures var e := Exec(Start(t), steps);
            && Tally(Dispatches, r, e.out)
               == Tally(Responses, r, e.out) + Tally(HandlingErrors, r, e.out) + Tally(Timeouts, r, e.out)
                  + Bit(r in e.next.broker.ongoing)
            && Tally(Asked, r, e.out) == Tally(Dispatches, r, e.out)
  {
    TableFollowsTrace(limits, Start(t), steps);
    AllowedBalances(map[], Exec(Start(t), steps).out, r);
    AskedIsDispatched(limits, Start(t), steps, r);
  }

  lemma TallyOne(k: Kind, r: RequestId, e: Event)
    ensures Tally(k, r, [e]) == Bit(Is(k, r, e))
  {
    assert [e][..0] == [];
  }

  lemma TallyTwo(k: Kind, r: RequestId, e: Event, f: Event)
    ensures Tally(k, r, [e, f]) == Bit(Is(k, r, e)) + Bit(Is(k, r, f))
  {
    TallyOne(k, r, e);
    assert [e, f][..1] == [e];
  }

  lemma SmallTally(k: Kind, r: RequestId, out: seq<Event>)
    requires |out| <= 2
    ensures Tally(k, r, out) == (if |out| > 0 then Bit(Is(k, r, out[0])) else 0)
            + (if |out| > 1 then Bit(Is(k, r, out[1])) else 0)
  {
    if |out| == 1 {
      TallyOne(k, r, out[0]);
      assert out == [out[0]];
    } else if |out| == 2 {
      TallyTwo(k, r, out[0], out[1]);
      assert out == [out[0], out[1]];
    }
  }

  lemma RequestAskedIsDispatched(b: Broker, m: ClientMessage, now: int, net: Net, r: RequestId)
    requires m.QueryRequest?
    ensures Tally(Asked, r, Request(b, m, now, net).out) == Tally(Dispatches, r, Request(b, m, now, net).out)
  {
    RequestFrame(b, m, now, net);
    SmallTally(Asked, r, Request(b, m, now, net).out);
    SmallTally(Dispatches, r, Request(b, m, now, net).out);
  }

  lemma OtherMessageAsksNobody(b: Broker, m: ClientMessage, now: int, net: Net, st: EventStore.Storage, r: RequestId)
    requires !m.QueryRequest?
    ensures Tally(Asked, r, Dispatch(b, m, now, net, st).out)
            == Tally(Dispatches, r, Dispatch(b, m, now, net, st).out) == 0
  {
    OthersAskNobody(b, m, now, net, st);
    TallyNone(Asked, r, Dispatch(b, m, now, net, st).out);
    TallyNone(Dispatches, r, Dispatch(b, m, now, net, st).out);
  }

  lemma StepAskedIsDispatched(s: System, step: Step, r: RequestId)
    ensures Tally(Asked, r, Apply(s, step).out) == Tally(Dispatches, r, Apply(s, step).out)
  {
    if step.Receive? {
      var b := Touch(s.broker, step.m.Source(), s.now);
      if step.m.QueryRequest? {
        RequestAskedIsDispatched(b, step.m, s.now, step.net, r);
      } else {
        OtherMessageAsksNobody(b, step.m, s.now, step.net, step.st, r);
      }
    } else {
      if step.Tick? {
        TickAsksNothing(s.broker, step.olds, step.expired, s.now, step.net);
      } else if step.Broadcast? && step.job < |s.broker.jobs| {
        BroadcastSays(s.broker, step.order, SourceEventBroadcast(s.broker.jobs[step.job]), step.net);
      }
      TallyNone(Asked, r, Apply(s, step).out);
      TallyNone(Dispatches, r, Apply(s, step).out);
    }
  }

  lemma TickAsksNothing(b: Broker, olds: seq<(ClientId, Tx)>, expired: seq<Ongoing>, now: int, net: Net)
    ensures forall e :: e in TickWith(b, olds, expired, now, net).out ==>
              !e.Dispatched? && (e.Sent? ==> !e.msg.QueryRequested?)
  {
    ProbesSay(b, olds, now, net);
    ExpirySays(ProbeAll(b, olds, now, net).state, expired, net);
  }

  lemma {:induction false} AskedIsDispatched(limits: Limits, s: System, steps: seq<Step>, r: RequestId)
    ensures Tally(Asked, r, Exec(s, steps).out) == Tally(Dispatches, r, Exec(s, steps).out)
    decreases |steps|
  {
    if steps != [] {
      var front, last := steps[..|steps| - 1], steps[|steps| - 1];
      AskedIsDispatched(limits, s, front, r);
      var before := Exec(s, front);
      StepAskedIsDispatched(before.next, last, r);
      TallyAppend(Asked, r, before.out, Apply(before.next, last).out);
      TallyAppend(Dispatches, r, before.out, Apply(before.next, last).out);
    }
  }

  // ---------- causal routing ----------

  predicate ClosesRequest(e: Event, r: RequestId) {
    Is(Responses, r, e) || Is(HandlingErrors, r, e) || Is(Timeouts, r, e)
  }

  lemma {:induction false} AllowedAt(open: OngoingRequests, out: seq<Event>, i: nat)
    requires AllAllowed(open, out) && i < |out|
    ensures Allowed(TrackAll(open, out[..i]), out[i])
  {
    if i < |out| - 1 {
      AllowedAt(open, out[..|out| - 1], i);
      assert out[..|out| - 1][..i] == out[..i];
    }
  }

  /** An open request is the latest dispatch of its id, with no closing event since. */
  lemma {:induction false} OpenIsLatestDispatch(out: seq<Event>, r: RequestId) returns (j: nat)
    requires r in TrackAll(map[], out)
    ensures j < |out| && out[j] == Dispatched(TrackAll(map[], out)[r]) && out[j].request.requestId == r
    ensures forall k :: j < k < |out| ==> !Is(Dispatches, r, out[k]) && !ClosesRequest(out[k], r)
  {
    var front, last := out[..|out| - 1], out[|out| - 1];
    if Is(Dispatches, r, last) {
      j := |out| - 1;
    } else {
      j := OpenIsLatestDispatch(front, r);
      assert forall k :: j < k < |front| ==> out[k] == front[k];
    }
  }

  /** Event `i` answers the dispatch at `j`: it goes to the client that requested it, about its query,
      and the id was neither dispatched again nor closed in between. */
  ghost predicate AnswersDispatch(out: seq<Event>, j: nat, i: nat)
    requires j < i < |out| && out[i].Sent? && Answers(out[i].msg)
  {
    var r := out[i].msg.requestId;
    && out[j].Dispatched? && out[j].request.requestId == r
    && out[j].request.requester == out[i].to
    && (out[i].msg.QueryRequestedFailed? ==> out[i].msg.queryId == out[j].request.queryId)
    && forall k :: j < k < i ==> !Is(Dispatches, r, out[k]) && !ClosesRequest(out[k], r)
  }

  lemma AllowedAnswersDispatch(out: seq<Event>, i: nat) returns (j: nat)
    requires AllAllowed(map[], out) && i < |out| && out[i].Sent? && Answers(out[i].msg)
    ensures j < i && AnswersDispatch(out, j, i)
  {
    AllowedAt(map[], out, i);
    j := OpenIsLatestDispatch(out[..i], out[i].msg.requestId);
    assert forall k :: j < k < i ==> out[..i][k] == out[k];
  }

  /** Causal routing: in every run from a fresh broker, a response, handling error or timeout notice for an id is sent
      to the client that made the latest dispatched request with that id, with no closing event for it in between. */
  lemma CausalRouting(limits: Limits, t: int, steps: seq<Step>, i: nat) returns (j: nat)
    requires IsRun(limits, Start(t), steps) && i < |Exec(Start(t), steps).out|
    requires Exec(Start(t), steps).out[i].Sent? && Answers(Exec(Start(t), steps).out[i].msg)
    ensures j < i && AnswersDispatch(Exec(Start(t), steps).out, j, i)
  {
    TableFollowsTrace(limits, Start(t), steps);
    j := AllowedAnswersDispatch(Exec(Start(t), steps).out, i);
  }

  /** Why the broker sent `e` in this step: on account of the message it took, as a heartbeat or timeout notice of a
      tick, or as a copy of the event that was waiting to be broadcast. */
  predicate Explains(s: System, step: Step, e: Event)
    requires e.Sent?
  {
    match step
    case Receive(m, _, _) => Repeats(m, e)
    case Tick(_, _, _) => e.msg.ServerHeartbeat? || (e.msg.QueryRequestedFailed? && e.msg.reason.QueryTimedOut?)
    case Broadcast(job, _, _) => job < |s.broker.jobs| && e.msg == SourceEventBroadcast(s.broker.jobs[job])
    case Advance(_) => false
  }

  lemma {:induction false} StepExplains(s: System, step: Step, e: Event)
    requires e in Apply(s, step).out && e.Sent?
    ensures Explains(s, step, e)
  {
    if step.Receive? {
      MessagesSayWhatTheyCarry(Touch(s.broker, step.m.Source(), s.now), step.m, s.now, step.net, step.st, e);
    } else if step.Tick? {
      ProbesSay(s.broker, step.olds, s.now, step.net);
      ExpirySays(ProbeAll(s.broker, step.olds, s.now, step.net).state, step.expired, step.net);
    } else if step.Broadcast? {
      BroadcastSays(s.broker, step.order, SourceEventBroadcast(s.broker.jobs[step.job]), step.net);
    }
  }

  /** Event `i` of the trace is among those of step `k`. */
  ghost predicate EmittedBy(s: System, steps: seq<Step>, i: nat, k: nat)
    requires k < |steps|
  {
    |Exec(s, steps[..k]).out| <= i < |Exec(s, steps[..k + 1]).out|
  }

  /** Every send of a run is explained by the step that made it: asks and refusals repeat the request's id, query and
      parameters, answers the answer's id and content. */
  lemma {:induction false} EverySendIsExplained(s: System, steps: seq<Step>, i: nat) returns (k: nat)
    requires i < |Exec(s, steps).out| && Exec(s, steps).out[i].Sent?
    ensures k < |steps| && EmittedBy(s, steps, i, k)
    ensures Explains(Exec(s, steps[..k]).next, steps[k], Exec(s, steps).out[i])
    decreases |steps|
  {
    var front, last := steps[..|steps| - 1], steps[|steps| - 1];
    if i < |Exec(s, front).out| {
      k := EverySendIsExplained(s, front, i);
      assert front[..k] == steps[..k] && front[..k + 1] == steps[..k + 1];
    } else {
      k := |steps| - 1;
      assert steps[..k + 1] == steps;
      var e := Exec(s, steps).out[i];
      assert e == Apply(Exec(s, front).next, last).out[i - |Exec(s, front).out|];
      StepExplains(Exec(s, front).next, last, e);
    }
  }

  /** The history of an answer: the dispatch it closes, at event `j`, and the message that it repeats, taken by step
      `k`. */
  lemma AnswerHistory(limits: Limits, t: int, steps: seq<Step>, i: nat) returns (j: nat, k: nat)
    requires IsRun(limits, Start(t), steps) && i < |Exec(Start(t), steps).out|
    requires Exec(Start(t), steps).out[i].Sent? && Closes(Exec(Start(t), steps).out[i].msg)
    ensures j < i && AnswersDispatch(Exec(Start(t), steps).out, j, i)
    ensures k < |steps| && EmittedBy(Start(t), steps, i, k)
    ensures steps[k].Receive? && Repeats(steps[k].m, Exec(Start(t), steps).out[i])
  {
    j := CausalRouting(limits, t, steps, i);
    k := EverySendIsExplained(Start(t), steps, i);
  }

  /** An answer to an open request is passed on, and the request closed, exactly when its requester can be reached; who
      answered does not matter. Otherwise the request stays open for another answer or its timeout. */
  lemma AnswerReachesRequester(s: System, m: ClientMessage, net: Net, st: EventStore.Storage)
    requires (m.QueryResponse? || m.QueryHandlingFailed?) && m.requestId in s.broker.ongoing
    ensures var o, a := s.broker.ongoing[m.requestId], Apply(s, Receive(m, net, st));
            var answer := if m.QueryResponse? then QueryResponded(m.requestId, m.result)
                          else QueryRequestedFailed(m.requestId, o.queryId, HandlingError(m.reason));
            if o.requester !in s.broker.connected then a.out == [] && a.next.broker.ongoing == s.broker.ongoing
            else
              var tx := s.broker.connected[o.requester].tx;
              var ok := net(o.requester, tx, answer);
              && a.out == [Sent(o.requester, tx, answer, ok)]
              && a.next.broker.ongoing == if ok then s.broker.ongoing - {m.requestId} else s.broker.ongoing
  {
  }
}

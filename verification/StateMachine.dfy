/** What one client message, one tick and one broadcast do to the broker, as functions on values
    (src/domain/state.rs). Each is one atomic step. */
module StateMachine {
  import opened Ids
  import opened Messages
  import opened RoundRobin
  import opened QueryHandlers
  import opened EventStore

  datatype ClientInfo = ClientInfo(tx: Tx, lastSeen: int)

  datatype Broker = Broker(
    connected: map<ClientId, ClientInfo>,
    handlers: Index,
    cursor: Option<ClientId>,
    ongoing: OngoingRequests,
    rows: seq<SourceEvent>,
    jobs: seq<SourceEvent>)  // saved events whose broadcast task has not run yet

  const EMPTY := Broker(map[], map[], None, map[], [], [])

  /** Whether a given send succeeds. */
  type Net = (ClientId, Tx, ServerMessage) -> bool

  /** What an observer of the broker sees: sends and their result, and the log lines that mark a table change. */
  datatype Event =
    | Sent(to: ClientId, tx: Tx, msg: ServerMessage, ok: bool)
    | Registered(client: ClientId, queries: seq<QueryId>, tx: Tx)
    | Disconnected(client: ClientId)
    | Dispatched(request: Ongoing)
    | TimedOut(requestId: RequestId, queryId: QueryId)

  datatype Outcome = Outcome(state: Broker, out: seq<Event>)

  /** Sends to `c` if it is connected. */
  function Notify(b: Broker, c: ClientId, msg: ServerMessage, net: Net): seq<Event> {
    if c in b.connected then
      var tx := b.connected[c].tx;
      [Sent(c, tx, msg, net(c, tx, msg))]
    else []
  }

  /** Sends to `c` and says whether that worked. */
  predicate Reaches(b: Broker, c: ClientId, msg: ServerMessage, net: Net) {
    c in b.connected && net(c, b.connected[c].tx, msg)
  }

  function Touch(b: Broker, source: Option<ClientId>, now: int): Broker {
    if source.Some? && source.value in b.connected
    then b.(connected := b.connected[source.value := b.connected[source.value].(lastSeen := now)])
    else b
  }

  function Register(b: Broker, m: ClientMessage, now: int, net: Net): Outcome
    requires m.RegisterClient?
  {
    if m.client in b.connected then
      var refusal := ClientRegistrationFailed(m.client);
      Outcome(b, [Sent(m.client, m.tx, refusal, net(m.client, m.tx, refusal))])
    else if !net(m.client, m.tx, ClientRegistered(m.client)) then
      Outcome(b, [Sent(m.client, m.tx, ClientRegistered(m.client), false)])
    else
      Outcome(b.(connected := b.connected[m.client := ClientInfo(m.tx, now)],
                 handlers := AddAll(b.handlers, m.client, m.queries)),
              [Sent(m.client, m.tx, ClientRegistered(m.client), true), Registered(m.client, m.queries, m.tx)])
  }

  function Disconnect(b: Broker, c: ClientId): Outcome {
    Outcome(b.(connected := b.connected - {c}, handlers := RemoveClient(b.handlers, c)), [Disconnected(c)])
  }

  function NotFound(m: ClientMessage): ServerMessage
    requires m.QueryRequest?
  {
    QueryRequestedFailed(m.requestId, m.queryId, QueryHandlerNotFound)
  }

  function Ask(m: ClientMessage): ServerMessage
    requires m.QueryRequest?
  {
    QueryRequested(m.requestId, m.queryId, m.parameters)
  }

  function Duplicated(m: ClientMessage): ServerMessage
    requires m.QueryRequest?
  {
    QueryRequestedFailed(m.requestId, m.queryId, RequestIdDuplicated)
  }

  function Request(b: Broker, m: ClientMessage, now: int, net: Net): Outcome
    requires m.QueryRequest?
  {
    if m.requestId in b.ongoing then
      if b.ongoing[m.requestId].IsSame(m) then Outcome(b, [])
      else Outcome(b, Notify(b, m.requester, Duplicated(m), net))
    else
      var b1 := b.(cursor := SelectCursor(b.handlers, b.cursor, m.queryId));
      match Select(b.handlers, b.cursor, m.queryId)
      case Selected(responder) =>
        if responder !in b.connected then Outcome(b1, [])
        else if Reaches(b, responder, Ask(m), net) then
          var o := Ongoing(m.requestId, m.queryId, m.parameters, m.requester, responder, now);
          Outcome(b1.(ongoing := b.ongoing[m.requestId := o]), Notify(b, responder, Ask(m), net) + [Dispatched(o)])
        else
          Outcome(b1, Notify(b, responder, Ask(m), net) + Notify(b, m.requester, NotFound(m), net))
      case HandlerNotFound => Outcome(b1, Notify(b, m.requester, NotFound(m), net))
      case ResponderNotFound => Outcome(b1, [])
  }

  /** A response or a handling error: passed to the requester, and the request closed if that worked. */
  function Close(b: Broker, r: RequestId, msg: ServerMessage, net: Net): Outcome
    requires r in b.ongoing
  {
    var requester := b.ongoing[r].requester;
    if Reaches(b, requester, msg, net)
    then Outcome(b.(ongoing := b.ongoing - {r}), Notify(b, requester, msg, net))
    else Outcome(b, Notify(b, requester, msg, net))
  }

  function Respond(b: Broker, m: ClientMessage, net: Net): Outcome
    requires m.QueryResponse?
  {
    if m.requestId !in b.ongoing then Outcome(b, [])
    else Close(b, m.requestId, QueryResponded(m.requestId, m.result), net)
  }

  function FailHandling(b: Broker, m: ClientMessage, net: Net): Outcome
    requires m.QueryHandlingFailed?
  {
    if m.requestId !in b.ongoing then Outcome(b, [])
    else Close(b, m.requestId, QueryRequestedFailed(m.requestId, b.ongoing[m.requestId].queryId,
        HandlingError(m.reason)), net)
  }

  /** Saves the event; if its source is still connected, acknowledges it and starts the broadcast task. */
  function Publish(b: Broker, m: ClientMessage, net: Net, st: Storage): Outcome
    requires m.RegisterSourceEvent?
  {
    var (rows, result) := Save(b.rows, NewEvent(m.aggregateId, m.aggregateType, m.payload), st);
    if result.SaveFailed? || m.source !in b.connected then Outcome(b.(rows := rows), [])
    else Outcome(b.(rows := rows, jobs := b.jobs + [result.event]),
                 Notify(b, m.source, SourceEventRegistered(result.event.id, result.event.clock), net))
  }

  function Dispatch(b: Broker, m: ClientMessage, now: int, net: Net, st: Storage): Outcome {
    match m
    case RegisterClient(_, _, _) => Register(b, m, now, net)
    case QueryRequest(_, _, _, _) => Request(b, m, now, net)
    case QueryResponse(_, _, _) => Respond(b, m, net)
    case QueryHandlingFailed(_, _, _) => FailHandling(b, m, net)
    case RegisterSourceEvent(_, _, _, _, _) => Publish(b, m, net, st)
    case Heartbeat(_) => Outcome(b, [])
    case DisconnectClient(c) => Disconnect(b, c)
  }

  /** `State::handle_message`. */
  function HandleMessage(b: Broker, m: ClientMessage, now: int, net: Net, st: Storage): Outcome {
    Dispatch(Touch(b, m.Source(), now), m, now, net, st)
  }

  // ---------- the tick ----------

  const NO_STORAGE := Storage(false, false, false, EventId(0), 0)

  /** The clients not seen for longer than `expiration`, with their channels. */
  function OldClients(b: Broker, now: int, expiration: int): set<(ClientId, Tx)> {
    set c | c in b.connected && now - b.connected[c].lastSeen > expiration :: (c, b.connected[c].tx)
  }

  /** One stale client: a heartbeat goes out; the result counts as a message from the client. */
  function Probe(b: Broker, stale: (ClientId, Tx), now: int, net: Net): Outcome {
    var ok := net(stale.0, stale.1, ServerHeartbeat);
    var handled := HandleMessage(b, if ok then Heartbeat(stale.0) else DisconnectClient(stale.0), now, net, NO_STORAGE);
    Outcome(handled.state, [Sent(stale.0, stale.1, ServerHeartbeat, ok)] + handled.out)
  }

  function ProbeAll(b: Broker, olds: seq<(ClientId, Tx)>, now: int, net: Net): Outcome {
    if olds == [] then Outcome(b, [])
    else
      var before := ProbeAll(b, olds[..|olds| - 1], now, net);
      var last := Probe(before.state, olds[|olds| - 1], now, net);
      Outcome(last.state, before.out + last.out)
  }

  /** One expired request: its requester is told if connected, and the request is dropped either way. */
  function Expire(b: Broker, o: Ongoing, net: Net): Outcome {
    Outcome(b.(ongoing := b.ongoing - {o.requestId}),
            Notify(b, o.requester, QueryRequestedFailed(o.requestId, o.queryId, QueryTimedOut), net)
            + if o.requestId in b.ongoing then [TimedOut(o.requestId, b.ongoing[o.requestId].queryId)] else [])
  }

  function ExpireAll(b: Broker, expired: seq<Ongoing>, net: Net): Outcome {
    if expired == [] then Outcome(b, [])
    else
      var before := ExpireAll(b, expired[..|expired| - 1], net);
      var last := Expire(before.state, expired[|expired| - 1], net);
      Outcome(last.state, before.out + last.out)
  }

  function TickWith(b: Broker, olds: seq<(ClientId, Tx)>, expired: seq<Ongoing>, now: int, net: Net): Outcome {
    var probed := ProbeAll(b, olds, now, net);
    var done := ExpireAll(probed.state, expired, net);
    Outcome(done.state, probed.out + done.out)
  }

  // ---------- the broadcast task ----------

  function SendAll(b: Broker, order: seq<ClientId>, msg: ServerMessage, net: Net): seq<Event> {
    if order == [] then []
    else SendAll(b, order[..|order| - 1], msg, net) + Notify(b, order[|order| - 1], msg, net)
  }

  function BroadcastWith(b: Broker, job: nat, order: seq<ClientId>, net: Net): Outcome
    requires job < |b.jobs|
  {
    Outcome(b.(jobs := b.jobs[..job] + b.jobs[job + 1..]),
            SendAll(b, order, SourceEventBroadcast(b.jobs[job]), net))
  }

  // ---------- steps and runs ----------

  /** Tick interval, client expiration and query timeout, in the clock's units. */
  datatype Limits = Limits(interval: nat, expiration: nat, timeout: nat)

  /** The broker, the clock, and when the last tick was. */
  datatype System = System(broker: Broker, now: int, lastTick: int)

  /** `olds`, `expired` and `order` are the orders in which the hash tables were iterated. */
  datatype Step =
    | Receive(m: ClientMessage, net: Net, st: Storage)
    | Tick(olds: seq<(ClientId, Tx)>, expired: seq<Ongoing>, net: Net)
    | Broadcast(job: nat, order: seq<ClientId>, net: Net)
    | Advance(d: nat)

  /** Which steps may happen: ticks are at most an interval apart. */
  ghost predicate Enabled(limits: Limits, s: System, step: Step) {
    match step
    case Receive(_, _, _) => true
    case Tick(olds, expired, _) =>
      Lists(olds, OldClients(s.broker, s.now, limits.expiration))
      && Lists(expired, ExpiredSet(s.broker.ongoing, s.now, limits.timeout))
    case Broadcast(job, order, _) => job < |s.broker.jobs| && Lists(order, s.broker.connected.Keys)
    case Advance(d) => s.now + d <= s.lastTick + limits.interval
  }

  datatype Stepped = Stepped(next: System, out: seq<Event>)

  function Apply(s: System, step: Step): Stepped {
    match step
    case Receive(m, net, st) =>
      var r := HandleMessage(s.broker, m, s.now, net, st);
      Stepped(s.(broker := r.state), r.out)
    case Tick(olds, expired, net) =>
      var r := TickWith(s.broker, olds, expired, s.now, net);
      Stepped(System(r.state, s.now, s.now), r.out)
    case Broadcast(job, order, net) =>
      if job < |s.broker.jobs| then
        var r := BroadcastWith(s.broker, job, order, net);
        Stepped(s.(broker := r.state), r.out)
      else Stepped(s, [])
    case Advance(d) => Stepped(s.(now := s.now + d), [])
  }

  /** The state and the trace after `steps`. */
  function Exec(s: System, steps: seq<Step>): Stepped
    decreases |steps|
  {
    if steps == [] then Stepped(s, [])
    else
      var before := Exec(s, steps[..|steps| - 1]);
      var last := Apply(before.next, steps[|steps| - 1]);
      Stepped(last.next, before.out + last.out)
  }

  ghost predicate IsRun(limits: Limits, s: System, steps: seq<Step>)
    decreases |steps|
  {
    steps == [] ||
    (IsRun(limits, s, steps[..|steps| - 1])
     && Enabled(limits, Exec(s, steps[..|steps| - 1]).next, steps[|steps| - 1]))
  }

  function Start(now: int): System {
    System(EMPTY, now, now)
  }

  // ---------- one more element ----------

  lemma ProbeAllNext(b: Broker, olds: seq<(ClientId, Tx)>, i: nat, now: int, net: Net)
    requires i < |olds|
    ensures var before := ProbeAll(b, olds[..i], now, net);
            var last := Probe(before.state, olds[i], now, net);
            ProbeAll(b, olds[..i + 1], now, net) == Outcome(last.state, before.out + last.out)
  {
    assert olds[..i + 1][..i] == olds[..i];
  }

  lemma ExpireAllNext(b: Broker, expired: seq<Ongoing>, i: nat, net: Net)
    requires i < |expired|
    ensures var before := ExpireAll(b, expired[..i], net);
            var last := Expire(before.state, expired[i], net);
            ExpireAll(b, expired[..i + 1], net) == Outcome(last.state, before.out + last.out)
  {
    assert expired[..i + 1][..i] == expired[..i];
  }

  lemma SendAllNext(b: Broker, order: seq<ClientId>, c: ClientId, msg: ServerMessage, net: Net)
    ensures SendAll(b, order + [c], msg, net) == SendAll(b, order, msg, net) + Notify(b, c, msg, net)
  {
    assert (order + [c])[..|order|] == order;
  }

  // ---------- what the two halves of a tick leave alone ----------

  /** Probing clients touches neither requests, nor cursor, nor events. */
  lemma {:induction false} ProbeAllKeepsRequests(b: Broker, olds: seq<(ClientId, Tx)>, now: int, net: Net)
    ensures var b' := ProbeAll(b, olds, now, net).state;
            b'.ongoing == b.ongoing && b'.cursor == b.cursor && b'.rows == b.rows && b'.jobs == b.jobs
  {
    if olds != [] {
      ProbeAllKeepsRequests(b, olds[..|olds| - 1], now, net);
    }
  }

  lemma {:induction false} ProbeAllKeepsNonEmpty(b: Broker, olds: seq<(ClientId, Tx)>, now: int, net: Net)
    requires NoEmptyLists(b.handlers)
    ensures NoEmptyLists(ProbeAll(b, olds, now, net).state.handlers)
  {
    if olds != [] {
      ProbeAllKeepsNonEmpty(b, olds[..|olds| - 1], now, net);
    }
  }

  /** Expiring requests touches nothing but the ongoing table. */
  lemma {:induction false} ExpireAllKeepsClients(b: Broker, expired: seq<Ongoing>, net: Net)
    ensures ExpireAll(b, expired, net).state == b.(ongoing := ExpireAll(b, expired, net).state.ongoing)
  {
    if expired != [] {
      ExpireAllKeepsClients(b, expired[..|expired| - 1], net);
    }
  }

  /** Expiring requests only removes entries from the ongoing table. */
  lemma {:induction false} ExpireAllOnlyRemoves(b: Broker, expired: seq<Ongoing>, net: Net)
    ensures var b' := ExpireAll(b, expired, net).state;
            b'.handlers == b.handlers && forall r :: r in b'.ongoing ==> r in b.ongoing && b'.ongoing[r] == b.ongoing[r]
  {
    if expired != [] {
      ExpireAllOnlyRemoves(b, expired[..|expired| - 1], net);
    }
  }

  // ---------- what the background loop and the broadcasts say ----------

  ghost predicate OnlyProbes(out: seq<Event>) {
    forall i :: 0 <= i < |out| ==> out[i].Disconnected? || (out[i].Sent? && out[i].msg.ServerHeartbeat?)
  }

  lemma {:induction false} ProbesSay(b: Broker, olds: seq<(ClientId, Tx)>, now: int, net: Net)
    ensures OnlyProbes(ProbeAll(b, olds, now, net).out)
  {
    if olds != [] {
      ProbesSay(b, olds[..|olds| - 1], now, net);
    }
  }

  ghost predicate OnlyTimeouts(out: seq<Event>) {
    forall i :: 0 <= i < |out| ==>
      out[i].TimedOut? || (out[i].Sent? && out[i].msg.QueryRequestedFailed? && out[i].msg.reason.QueryTimedOut?)
  }

  lemma {:induction false} ExpirySays(b: Broker, expired: seq<Ongoing>, net: Net)
    ensures OnlyTimeouts(ExpireAll(b, expired, net).out)
  {
    if expired != [] {
      ExpirySays(b, expired[..|expired| - 1], net);
    }
  }

  ghost predicate OnlySends(out: seq<Event>, msg: ServerMessage) {
    forall i :: 0 <= i < |out| ==> out[i].Sent? && out[i].msg == msg
  }

  lemma {:induction false} BroadcastSays(b: Broker, order: seq<ClientId>, msg: ServerMessage, net: Net)
    ensures OnlySends(SendAll(b, order, msg, net), msg)
  {
    if order != [] {
      BroadcastSays(b, order[..|order| - 1], msg, net);
    }
  }

  // ---------- what each message leaves alone ----------

  /** Sends and request bookkeeping only, at most two events. */
  ghost predicate Talk(out: seq<Event>) {
    |out| <= 2 && forall i :: 0 <= i < |out| ==> out[i].Sent? || out[i].Dispatched?
  }

  lemma RequestFrame(b: Broker, m: ClientMessage, now: int, net: Net)
    requires m.QueryRequest?
    ensures var r := Request(b, m, now, net);
            r.state == b.(ongoing := r.state.ongoing, cursor := r.state.cursor) && Talk(r.out)
  {
  }

  lemma AnswerFrame(b: Broker, m: ClientMessage, now: int, net: Net, st: Storage)
    requires m.QueryResponse? || m.QueryHandlingFailed?
    ensures var r := Dispatch(b, m, now, net, st);
            r.state == b.(ongoing := r.state.ongoing) && Talk(r.out) && |r.out| <= 1
  {
  }

  lemma PublishFrame(b: Broker, m: ClientMessage, net: Net, st: Storage)
    requires m.RegisterSourceEvent?
    ensures var r := Publish(b, m, net, st);
            r.state == b.(rows := r.state.rows, jobs := r.state.jobs) && Talk(r.out) && |r.out| <= 1
  {
  }

  /** Messages other than registration and disconnection leave the client tables alone. */
  lemma OthersKeepClients(b: Broker, m: ClientMessage, now: int, net: Net, st: Storage)
    requires !m.RegisterClient? && !m.DisconnectClient?
    ensures var r := Dispatch(b, m, now, net, st);
            r.state.connected == b.connected && r.state.handlers == b.handlers && Talk(r.out)
  {
    match m
    case QueryRequest(_, _, _, _) => RequestFrame(b, m, now, net);
    case QueryResponse(_, _, _) => AnswerFrame(b, m, now, net, st);
    case QueryHandlingFailed(_, _, _) => AnswerFrame(b, m, now, net, st);
    case RegisterSourceEvent(_, _, _, _, _) => PublishFrame(b, m, net, st);
    case _ =>
  }

  /** Messages other than publications leave the event log alone and say nothing about it. */
  lemma OthersKeepLog(b: Broker, m: ClientMessage, now: int, net: Net, st: Storage)
    requires !m.RegisterSourceEvent?
    ensures var r := Dispatch(b, m, now, net, st);
            && r.state.rows == b.rows && r.state.jobs == b.jobs
            && forall e :: e in r.out && e.Sent? ==> !e.msg.SourceEventRegistered? && !e.msg.SourceEventBroadcast?
  {
    match m
    case QueryRequest(_, _, _, _) => RequestFrame(b, m, now, net);
    case QueryResponse(_, _, _) => AnswerFrame(b, m, now, net, st);
    case QueryHandlingFailed(_, _, _) => AnswerFrame(b, m, now, net, st);
    case _ =>
  }

  /** Only a request moves the cursor or asks a responder. */
  lemma OthersAskNobody(b: Broker, m: ClientMessage, now: int, net: Net, st: Storage)
    requires !m.QueryRequest?
    ensures var r := Dispatch(b, m, now, net, st);
            r.state.cursor == b.cursor && forall e :: e in r.out && e.Sent? ==> !e.msg.QueryRequested?
  {
    match m
    case QueryResponse(_, _, _) => AnswerFrame(b, m, now, net, st);
    case QueryHandlingFailed(_, _, _) => AnswerFrame(b, m, now, net, st);
    case RegisterSourceEvent(_, _, _, _, _) => PublishFrame(b, m, net, st);
    case _ =>
  }

  /** What is sent on account of `m` repeats its fields, and goes to the right client: a registration is answered on the
      channel it came on, a refusal of a request goes to its requester, an acknowledgement to the event's source. */
  predicate Repeats(m: ClientMessage, e: Event)
    requires e.Sent?
  {
    match e.msg
    case ClientRegistered(c) => m.RegisterClient? && c == e.to == m.client && e.tx == m.tx
    case ClientRegistrationFailed(c) => m.RegisterClient? && c == e.to == m.client && e.tx == m.tx
    case QueryRequested(r, q, parameters) =>
      m.QueryRequest? && r == m.requestId && q == m.queryId && parameters == m.parameters
    case QueryRequestedFailed(r, q, reason) =>
      (match reason
       case HandlingError(failure) => m.QueryHandlingFailed? && r == m.requestId && failure == m.reason
       case QueryTimedOut => false
       case _ => m.QueryRequest? && r == m.requestId && q == m.queryId && e.to == m.requester)
    case QueryResponded(r, result) => m.QueryResponse? && r == m.requestId && result == m.result
    case SourceEventRegistered(_, _) => m.RegisterSourceEvent? && e.to == m.source
    case _ => false
  }

  /** Everything a message makes the broker send repeats that message. */
  lemma MessagesSayWhatTheyCarry(b: Broker, m: ClientMessage, now: int, net: Net, st: Storage, e: Event)
    requires e in Dispatch(b, m, now, net, st).out && e.Sent?
    ensures Repeats(m, e)
  {
    if m.QueryRequest? {
      RequestSays(b, m, now, net, e);
    } else if m.QueryResponse? || m.QueryHandlingFailed? {
      AnswerFrame(b, m, now, net, st);
    } else if m.RegisterSourceEvent? {
      PublishFrame(b, m, net, st);
    }
  }

  lemma RequestSays(b: Broker, m: ClientMessage, now: int, net: Net, e: Event)
    requires m.QueryRequest? && e in Request(b, m, now, net).out && e.Sent?
    ensures e.msg == Ask(m) || e.msg == NotFound(m) || e.msg == Duplicated(m)
    ensures Repeats(m, e)
  {
  }
}

/** Client sessions over one broker (src/api/grpc/control.rs:47-99, src/api/grpc/transform.rs:85-178). */
module Sessions {
  import opened Ids
  import opened Messages
  import opened QueryHandlers
  import opened StateMachine
  import opened Registry
  import opened State
  import opened Timing

  /** What arrives on the wire. A text id that does not pass validation is `None`. */
  datatype Payload =
    | RegisterPayload(client: Option<ClientId>, queries: seq<Option<QueryId>>)
    | QueryPayload(requestId: RequestId, queryId: Option<QueryId>, parameters: map<string, string>)
    | ResponsePayload(requestId: RequestId, result: seq<byte>)
    | FailurePayload(requestId: RequestId, reason: int, details: string)
    | EventPayload(eventId: EventId, aggregateId: Option<string>, aggregateType: string, payload: seq<byte>)
    | HeartbeatPayload

  /** One turn of the session loop: a payload, an empty message, or a reason to leave the loop. */
  datatype Inbound = Message(payload: Payload) | Empty | EndOfStream

  predicate AllValid(queries: seq<Option<QueryId>>) {
    forall i | 0 <= i < |queries| :: queries[i].Some?
  }

  function Values(queries: seq<Option<QueryId>>): seq<QueryId>
    requires AllValid(queries)
  {
    seq(|queries|, i requires 0 <= i < |queries| => queries[i].value)
  }

  /** The reason behind its number on the wire: 1 is ErrorHandling, every other number Unknown, with details unless
      they are empty. */
  function ReasonOf(reason: int, details: string): HandlingFailure {
    if reason == 1 then ErrorHandling else Unknown(if details == "" then None else Some(details))
  }

  /** Stamps the session's identity on the message; `None` for an invalid id or an unregistered sender. */
  function FromPayload(p: Payload, identity: Option<ClientId>, tx: Tx): Option<ClientMessage> {
    match p
    case RegisterPayload(client, queries) =>
      if AllValid(queries) && client.Some? then Some(RegisterClient(client.value, Values(queries), tx)) else None
    case QueryPayload(r, q, parameters) =>
      if identity.Some? && q.Some? then Some(QueryRequest(r, identity.value, q.value, parameters)) else None
    case ResponsePayload(r, result) =>
      if identity.Some? then Some(QueryResponse(r, identity.value, result)) else None
    case FailurePayload(r, reason, details) =>
      if identity.Some? then Some(QueryHandlingFailed(r, identity.value, ReasonOf(reason, details))) else None
    case EventPayload(e, aggregateId, aggregateType, payload) =>
      if identity.Some? && aggregateId.Some?
      then Some(RegisterSourceEvent(identity.value, e, aggregateId.value, aggregateType, payload)) else None
    case HeartbeatPayload =>
      if identity.Some? then Some(Heartbeat(identity.value)) else None
  }

  /** An unregistered session can only register; every other message carries the session's identity as its source. */
  lemma MessagesCarryIdentity(p: Payload, identity: Option<ClientId>, tx: Tx)
    requires FromPayload(p, identity, tx).Some?
    ensures var m := FromPayload(p, identity, tx).value;
            if m.RegisterClient? then p.RegisterPayload? && m.tx == tx && Some(m.client) == p.client
            else identity.Some? && m.Source() == identity && !m.DisconnectClient?
  {
  }

  /** A session's local state: its channel, the id of its last registration, and whether its loop still runs. */
  datatype Session = Session(tx: Tx, identity: Option<ClientId>, running: bool)

  datatype Turn = Turn(session: Session, broker: Broker, out: seq<Event>)

  /** Leaving the loop: the final disconnect, if the session ever registered. */
  function Leave(x: Session, b: Broker, now: int, net: Net, st: EventStore.Storage): Turn {
    var left := x.(running := false);
    if x.identity.None? then Turn(left, b, [])
    else
      var r := HandleMessage(b, DisconnectClient(x.identity.value), now, net, st);
      Turn(left, r.state, r.out)
  }

  /** One turn. The identity follows every registration attempt, accepted or refused. */
  function TakeTurn(x: Session, b: Broker, item: Inbound, now: int, net: Net, st: EventStore.Storage): Turn {
    match item
    case Empty => Turn(x, b, [])
    case EndOfStream => Leave(x, b, now, net, st)
    case Message(p) =>
      match FromPayload(p, x.identity, x.tx)
      case None => Leave(x, b, now, net, st)
      case Some(m) =>
        var r := HandleMessage(b, m, now, net, st);
        Turn(if m.RegisterClient? then x.(identity := Some(m.client)) else x, r.state, r.out)
  }

  // ---------- what a turn does with each kind of payload ----------

  /** A text id in the payload does not pass validation. */
  predicate HasInvalidId(p: Payload) {
    match p
    case RegisterPayload(client, queries) => client.None? || None in queries
    case QueryPayload(_, q, _) => q.None?
    case EventPayload(_, aggregateId, _, _) => aggregateId.None?
    case _ => false
  }

  /** The turn does to the broker what handling `m` does. */
  ghost predicate Handles(turn: Turn, b: Broker, m: ClientMessage, now: int, net: Net, st: EventStore.Storage) {
    turn.broker == HandleMessage(b, m, now, net, st).state && turn.out == HandleMessage(b, m, now, net, st).out
  }

  /** A payload ends the session exactly when it has an invalid id, or is no registration and the session has not
      registered; then the session's client is disconnected, if it has one. */
  lemma PayloadEndsSessionExactly(x: Session, b: Broker, p: Payload, now: int, net: Net, st: EventStore.Storage)
    requires x.running
    ensures var turn := TakeTurn(x, b, Message(p), now, net, st);
            && (!turn.session.running <==> HasInvalidId(p) || (!p.RegisterPayload? && x.identity.None?))
            && turn.session.tx == x.tx
            && (!turn.session.running ==>
                  && turn.session.identity == x.identity
                  && if x.identity.Some? then Handles(turn, b, DisconnectClient(x.identity.value), now, net, st)
                     else turn.broker == b && turn.out == [])
  {
    if p.RegisterPayload? {
      assert AllValid(p.queries) <==> None !in p.queries;
    }
  }

  /** Any other payload is handled as the message with its fields, stamped with the session's identity; a registration
      becomes the identity, whether or not it is accepted. */
  lemma PayloadIsHandled(x: Session, b: Broker, p: Payload, now: int, net: Net, st: EventStore.Storage)
    requires !HasInvalidId(p) && (p.RegisterPayload? || x.identity.Some?)
    ensures var turn := TakeTurn(x, b, Message(p), now, net, st);
            && turn.session.identity == (if p.RegisterPayload? then p.client else x.identity)
            && match p
               case RegisterPayload(client, queries) =>
                 exists ids :: |ids| == |queries| && (forall i :: 0 <= i < |ids| ==> queries[i] == Some(ids[i]))
                               && Handles(turn, b, RegisterClient(client.value, ids, x.tx), now, net, st)
               case QueryPayload(r, q, parameters) =>
                 Handles(turn, b, QueryRequest(r, x.identity.value, q.value, parameters), now, net, st)
               case ResponsePayload(r, result) =>
                 Handles(turn, b, QueryResponse(r, x.identity.value, result), now, net, st)
               case FailurePayload(r, reason, details) =>
                 exists failure :: Handles(turn, b, QueryHandlingFailed(r, x.identity.value, failure), now, net, st)
                                   && (failure == ErrorHandling <==> reason == 1)
                                   && (failure.Unknown? ==>
                                         failure.details == if |details| > 0 then Some(details) else None)
               case EventPayload(e, aggregateId, aggregateType, payload) =>
                 Handles(turn, b, RegisterSourceEvent(x.identity.value, e, aggregateId.value, aggregateType, payload),
                         now, net, st)
               case HeartbeatPayload =>
                 Handles(turn, b, Heartbeat(x.identity.value), now, net, st)
  {
    var turn := TakeTurn(x, b, Message(p), now, net, st);
    match p
    case RegisterPayload(client, queries) =>
      var ids := Values(queries);
      assert Handles(turn, b, RegisterClient(client.value, ids, x.tx), now, net, st);
    case FailurePayload(r, reason, details) =>
      assert Handles(turn, b, QueryHandlingFailed(r, x.identity.value, ReasonOf(reason, details)), now, net, st);
    case _ =>
  }

  /** An empty message changes nothing, and the end of the stream disconnects the session's client, if it has one. */
  lemma OtherTurns(x: Session, b: Broker, now: int, net: Net, st: EventStore.Storage)
    ensures TakeTurn(x, b, Empty, now, net, st) == Turn(x, b, [])
    ensures var turn := TakeTurn(x, b, EndOfStream, now, net, st);
            && turn.session == Session(x.tx, x.identity, false)
            && if x.identity.Some? then Handles(turn, b, DisconnectClient(x.identity.value), now, net, st)
               else turn.broker == b && turn.out == []
  {
  }

  /** The session task. */
  class SessionTask {
    const tx: Tx
    var identity: Option<ClientId>
    var running: bool

    ghost function Model(): Session
      reads this
    {
      Session(tx, identity, running)
    }

    constructor (tx: Tx)
      ensures Model() == Session(tx, None, true)
    {
      this.tx := tx;
      identity, running := None, true;
    }

    method Handle(item: Inbound, state: State, now: int, net: Net, st: EventStore.Storage)
      modifies this, state, state.queryHandlers, state.queryHandlers.strategy, state.repository
      ensures var turn := TakeTurn(old(Model()), old(state.Model()), item, now, net, st);
              && Model() == turn.session && state.Model() == turn.broker
              && state.trace == old(state.trace) + turn.out
    {
      match item {
        case Empty =>
        case EndOfStream => Finish(state, now, net, st);
        case Message(p) =>
          match FromPayload(p, identity, tx) {
            case None => Finish(state, now, net, st);
            case Some(m) =>
              state.HandleMessage(m, now, net, st);
              if m.RegisterClient? {
                identity := Some(m.client);
              }
          }
      }
    }

    method Finish(state: State, now: int, net: Net, st: EventStore.Storage)
      modifies this, state, state.queryHandlers, state.queryHandlers.strategy, state.repository
      ensures var turn := Leave(old(Model()), old(state.Model()), now, net, st);
              && Model() == turn.session && state.Model() == turn.broker
              && state.trace == old(state.trace) + turn.out
    {
      running := false;
      if identity.Some? {
        state.HandleMessage(DisconnectClient(identity.value), now, net, st);
      }
    }
  }

  // ---------- any number of sessions, interleaved with ticks and broadcasts ----------

  datatype World = World(system: System, sessions: map<nat, Session>)

  datatype WorldStep =
    | Open(id: nat, tx: Tx)
    | TurnOf(id: nat, item: Inbound, net: Net, st: EventStore.Storage)
    | Background(step: Step)

  ghost predicate Possible(limits: Limits, w: World, step: WorldStep) {
    match step
    case Open(id, tx) => id !in w.sessions && forall other :: other in w.sessions ==> w.sessions[other].tx != tx
    case TurnOf(id, _, _, _) => id in w.sessions && w.sessions[id].running
    case Background(s) => !s.Receive? && Enabled(limits, w.system, s)
  }

  function Proceed(w: World, step: WorldStep): World {
    match step
    case Open(id, tx) => w.(sessions := w.sessions[id := Session(tx, None, true)])
    case TurnOf(id, item, net, st) =>
      if id in w.sessions then
        var turn := TakeTurn(w.sessions[id], w.system.broker, item, w.system.now, net, st);
        World(w.system.(broker := turn.broker), w.sessions[id := turn.session])
      else w
    case Background(s) => w.(system := Apply(w.system, s).next)
  }

  function After(w: World, steps: seq<WorldStep>): World
    decreases |steps|
  {
    if steps == [] then w else Proceed(After(w, steps[..|steps| - 1]), steps[|steps| - 1])
  }

  ghost predicate IsHistory(limits: Limits, w: World, steps: seq<WorldStep>)
    decreases |steps|
  {
    steps == [] ||
    (IsHistory(limits, w, steps[..|steps| - 1]) && Possible(limits, After(w, steps[..|steps| - 1]), steps[|steps| - 1]))
  }

  // ---------- a session's state, read off the history ----------

  /** The channel `id` was opened with. */
  ghost function Opening(steps: seq<WorldStep>, id: nat): Option<Tx> {
    if steps == [] then None
    else
      var last := steps[|steps| - 1];
      if last.Open? && last.id == id then Some(last.tx) else Opening(steps[..|steps| - 1], id)
  }

  /** The client of the last well-formed registration that `id` received. */
  ghost function LastRegistered(steps: seq<WorldStep>, id: nat): Option<ClientId> {
    if steps == [] then None
    else
      var last := steps[|steps| - 1];
      if last.TurnOf? && last.id == id && last.item.Message? && last.item.payload.RegisterPayload?
         && !HasInvalidId(last.item.payload)
      then last.item.payload.client
      else LastRegistered(steps[..|steps| - 1], id)
  }

  /** What makes a session with this identity leave its loop. */
  predicate Ends(item: Inbound, identity: Option<ClientId>) {
    match item
    case Empty => false
    case EndOfStream => true
    case Message(p) => HasInvalidId(p) || (!p.RegisterPayload? && identity.None?)
  }

  /** `id` received something that made it leave. */
  ghost predicate HasLeft(steps: seq<WorldStep>, id: nat) {
    steps != []
    && var front, last := steps[..|steps| - 1], steps[|steps| - 1];
    HasLeft(front, id) || (last.TurnOf? && last.id == id && Ends(last.item, LastRegistered(front, id)))
  }

  /** In every history a session exists exactly when it was opened; it keeps its channel, its identity is the client of
      the last registration it received, and it runs exactly until it receives something that makes it leave. */
  lemma {:induction false} SessionFollowsHistory(limits: Limits, w: World, steps: seq<WorldStep>, id: nat)
    requires id !in w.sessions && IsHistory(limits, w, steps)
    ensures id in After(w, steps).sessions <==> Opening(steps, id).Some?
    ensures id in After(w, steps).sessions ==>
              var x := After(w, steps).sessions[id];
              && Some(x.tx) == Opening(steps, id)
              && x.identity == LastRegistered(steps, id)
              && (x.running <==> !HasLeft(steps, id))
    ensures id !in After(w, steps).sessions ==> LastRegistered(steps, id).None? && !HasLeft(steps, id)
    decreases |steps|
  {
    if steps != [] {
      var front, last := steps[..|steps| - 1], steps[|steps| - 1];
      SessionFollowsHistory(limits, w, front, id);
      if last.TurnOf? && last.id == id && last.item.Message? {
        var before := After(w, front);
        var x, p, b := before.sessions[id], last.item.payload, before.system.broker;
        PayloadEndsSessionExactly(x, b, p, before.system.now, last.net, last.st);
        if !HasInvalidId(p) && (p.RegisterPayload? || x.identity.Some?) {
          PayloadIsHandled(x, b, p, before.system.now, last.net, last.st);
        }
      }
    }
  }

  /** Every connected client is the identity of a running session. */
  ghost predicate Covered(w: World) {
    forall c :: c in w.system.broker.connected ==> Holds(w, c)
  }

  ghost predicate Holds(w: World, c: ClientId) {
    exists id :: id in w.sessions && w.sessions[id].running && w.sessions[id].identity == Some(c)
  }

  /** A session registers an id other than its own while only it holds the connected id it had. */
  ghost predicate Abandons(w: World, step: WorldStep) {
    && step.TurnOf? && step.id in w.sessions && step.item.Message?
    && var x := w.sessions[step.id];
    && var m := FromPayload(step.item.payload, x.identity, x.tx);
    && m.Some? && m.value.RegisterClient?
    && x.identity.Some? && x.identity.value in w.system.broker.connected && m.value.client != x.identity.value
    && forall other :: other in w.sessions && other != step.id && w.sessions[other].running ==>
                         w.sessions[other].identity != x.identity
  }

  /** A message connects nobody but the client it registers. */
  lemma NewClientsRegister(b: Broker, m: ClientMessage, now: int, net: Net, st: EventStore.Storage, c: ClientId)
    requires c in HandleMessage(b, m, now, net, st).state.connected
    ensures c in b.connected || (m.RegisterClient? && m.client == c)
    ensures m.DisconnectClient? ==> m.client != c
  {
    var b1 := Touch(b, m.Source(), now);
    assert b1.connected.Keys == b.connected.Keys;
    if !m.RegisterClient? && !m.DisconnectClient? {
      OthersKeepClients(b1, m, now, net, st);
    }
  }

  lemma {:induction false} ProbesConnectNobody(b: Broker, olds: seq<(ClientId, Tx)>, now: int, net: Net)
    ensures ProbeAll(b, olds, now, net).state.connected.Keys <= b.connected.Keys
  {
    if olds != [] {
      ProbesConnectNobody(b, olds[..|olds| - 1], now, net);
    }
  }

  lemma HeldElsewhere(w: World, w': World, id: nat, c: ClientId)
    requires Holds(w, c) && id in w.sessions && id in w'.sessions
    requires forall other :: other in w.sessions && other != id ==>
               other in w'.sessions && w'.sessions[other] == w.sessions[other]
    requires w.sessions[id].running && w.sessions[id].identity == Some(c) ==>
               (w'.sessions[id].running && w'.sessions[id].identity == Some(c))
               || exists other :: other in w.sessions && other != id && w.sessions[other].running
                   && w.sessions[other].identity == Some(c)
    ensures Holds(w', c)
  {
    var h :| h in w.sessions && w.sessions[h].running && w.sessions[h].identity == Some(c);
    if h == id {
      if !(w'.sessions[id].running && w'.sessions[id].identity == Some(c)) {
        var other :| other in w.sessions && other != id && w.sessions[other].running
            && w.sessions[other].identity == Some(c);
        assert w'.sessions[other] == w.sessions[other];
      }
    } else {
      assert w'.sessions[h] == w.sessions[h];
    }
  }

  /** A session turn keeps every connected client covered exactly when the session does not abandon its id. */
  lemma TurnKeepsCoverage(limits: Limits, w: World, step: WorldStep)
    requires Covered(w) && Possible(limits, w, step) && step.TurnOf?
    ensures Covered(Proceed(w, step)) <==> !Abandons(w, step)
  {
    var w' := Proceed(w, step);
    var id, x := step.id, w.sessions[step.id];
    if Abandons(w, step) {
      AbandonedIsUncovered(limits, w, step);
    } else {
      forall c | c in w'.system.broker.connected ensures Holds(w', c) {
        TurnCovers(limits, w, step, c);
      }
    }
  }

  lemma AbandonedIsUncovered(limits: Limits, w: World, step: WorldStep)
    requires Possible(limits, w, step) && step.TurnOf? && Abandons(w, step)
    ensures !Covered(Proceed(w, step))
  {
    var w', x := Proceed(w, step), w.sessions[step.id];
    var a := x.identity.value;
    assert a in w'.system.broker.connected;
    assert forall h :: h in w'.sessions && h != step.id ==> w'.sessions[h] == w.sessions[h];
    assert !Holds(w', a);
  }

  lemma TurnCovers(limits: Limits, w: World, step: WorldStep, c: ClientId)
    requires Covered(w) && Possible(limits, w, step) && step.TurnOf? && !Abandons(w, step)
    requires c in Proceed(w, step).system.broker.connected
    ensures Holds(Proceed(w, step), c)
  {
    var w', id, x := Proceed(w, step), step.id, w.sessions[step.id];
    var b, now := w.system.broker, w.system.now;
    var parsed := if step.item.Message? then FromPayload(step.item.payload, x.identity, x.tx) else None;
    if parsed.Some? {
      var m := parsed.value;
      NewClientsRegister(b, m, now, step.net, step.st, c);
      if m.RegisterClient? && m.client == c {
        assert w'.sessions[id].running && w'.sessions[id].identity == Some(c);
      } else {
        HeldElsewhere(w, w', id, c);
      }
    } else if step.item.Empty? {
      HeldElsewhere(w, w', id, c);
    } else {
      if x.identity.Some? {
        NewClientsRegister(b, DisconnectClient(x.identity.value), now, step.net, step.st, c);
      }
      HeldElsewhere(w, w', id, c);
    }
  }

  /** In the whole history no session abandons an id. */
  ghost predicate NeverAbandons(w: World, steps: seq<WorldStep>)
    decreases |steps|
  {
    steps == [] ||
    (NeverAbandons(w, steps[..|steps| - 1]) && !Abandons(After(w, steps[..|steps| - 1]), steps[|steps| - 1]))
  }

  ghost predicate AlwaysCovered(w: World, steps: seq<WorldStep>)
    decreases |steps|
  {
    Covered(After(w, steps)) && (steps == [] || AlwaysCovered(w, steps[..|steps| - 1]))
  }

  /** Every connected client is at all times the identity of a running session exactly when no session ever abandons
      an id. */
  lemma {:induction false} AlwaysCoveredExactly(limits: Limits, w: World, steps: seq<WorldStep>)
    requires Covered(w) && IsHistory(limits, w, steps)
    ensures AlwaysCovered(w, steps) <==> NeverAbandons(w, steps)
    decreases |steps|
  {
    if steps != [] {
      var front, last := steps[..|steps| - 1], steps[|steps| - 1];
      AlwaysCoveredExactly(limits, w, front);
      if AlwaysCovered(w, front) {
        CoveredAtEnd(w, front);
        if last.TurnOf? {
          TurnKeepsCoverage(limits, After(w, front), last);
        } else {
          BackgroundKeepsCoverage(limits, After(w, front), last);
        }
      }
    }
  }

  lemma CoveredAtEnd(w: World, steps: seq<WorldStep>)
    requires AlwaysCovered(w, steps)
    ensures Covered(After(w, steps))
  {
  }

  /** In the whole history no session registers an id other than the one it already has. */
  ghost predicate OneIdPerSession(w: World, steps: seq<WorldStep>)
    decreases |steps|
  {
    steps == [] ||
    var before, last := After(w, steps[..|steps| - 1]), steps[|steps| - 1];
    && OneIdPerSession(w, steps[..|steps| - 1])
    && (last.TurnOf? && last.id in before.sessions && last.item.Message? && last.item.payload.RegisterPayload? ==>
          before.sessions[last.id].identity.None? || last.item.payload.client.None?
          || last.item.payload.client == before.sessions[last.id].identity)
  }

  lemma {:induction false} OneIdIsNeverAbandoned(w: World, steps: seq<WorldStep>)
    requires OneIdPerSession(w, steps)
    ensures NeverAbandons(w, steps)
    decreases |steps|
  {
    if steps != [] {
      OneIdIsNeverAbandoned(w, steps[..|steps| - 1]);
    }
  }

  lemma {:induction false} HistoryReflects(w: World, regs: Registry, steps: seq<WorldStep>) returns (regs': Registry)
    requires Reflects(w.system.broker, regs)
    ensures Reflects(After(w, steps).system.broker, regs')
    decreases |steps|
  {
    regs' := regs;
    if steps != [] {
      regs' := HistoryReflects(w, regs, steps[..|steps| - 1]);
      regs' := WorldStepReflects(After(w, steps[..|steps| - 1]), regs', steps[|steps| - 1]);
    }
  }

  lemma WorldStepReflects(w: World, regs: Registry, step: WorldStep) returns (regs': Registry)
    requires Reflects(w.system.broker, regs)
    ensures Reflects(Proceed(w, step).system.broker, regs')
  {
    regs' := regs;
    if step.Background? {
      StepReflects(w.system, regs, step.step);
      regs' := Replay(regs, Apply(w.system, step.step).out);
    } else if step.TurnOf? && step.id in w.sessions {
      var x, b, now := w.sessions[step.id], w.system.broker, w.system.now;
      var parsed := if step.item.Message? then FromPayload(step.item.payload, x.identity, x.tx) else None;
      if parsed.Some? {
        HandleReflects(b, regs, parsed.value, now, step.net, step.st);
        regs' := Replay(regs, HandleMessage(b, parsed.value, now, step.net, step.st).out);
      } else if !step.item.Empty? && x.identity.Some? {
        HandleReflects(b, regs, DisconnectClient(x.identity.value), now, step.net, step.st);
        regs' := Replay(regs, HandleMessage(b, DisconnectClient(x.identity.value), now, step.net, step.st).out);
      }
    }
  }

  lemma BackgroundKeepsCoverage(limits: Limits, w: World, step: WorldStep)
    requires Covered(w) && Possible(limits, w, step) && !step.TurnOf?
    ensures Covered(Proceed(w, step))
  {
    var w' := Proceed(w, step);
    if step.Background? && step.step.Tick? {
      var t := step.step;
      ProbesConnectNobody(w.system.broker, t.olds, w.system.now, t.net);
      ExpireAllKeepsClients(ProbeAll(w.system.broker, t.olds, w.system.now, t.net).state, t.expired, t.net);
    }
    assert w'.system.broker.connected.Keys <= w.system.broker.connected.Keys;
    forall c | c in w'.system.broker.connected ensures Holds(w', c) {
      var h :| h in w.sessions && w.sessions[h].running && w.sessions[h].identity == Some(c);
      assert h in w'.sessions && w'.sessions[h] == w.sessions[h];
    }
  }

  ghost predicate AllEnded(w: World) {
    forall id :: id in w.sessions ==> !w.sessions[id].running
  }

  /** No leak: however any number of sessions interleave with each other, with ticks and with broadcasts, if no session
      abandons an id, then once all sessions have ended both client tables are empty. */
  lemma NoLeakAcrossSessions(limits: Limits, t: int, steps: seq<WorldStep>)
    requires IsHistory(limits, World(Start(t), map[]), steps) && NeverAbandons(World(Start(t), map[]), steps)
    requires AllEnded(After(World(Start(t), map[]), steps))
    ensures var b := After(World(Start(t), map[]), steps).system.broker; b.connected == map[] && b.handlers == map[]
  {
    StartReflects(t);
    AlwaysCoveredExactly(limits, World(Start(t), map[]), steps);
    CoveredAtEnd(World(Start(t), map[]), steps);
    var regs := HistoryReflects(World(Start(t), map[]), [], steps);
    var w := After(World(Start(t), map[]), steps);
    var b := w.system.broker;
    assert forall c :: !Holds(w, c);
    assert b.connected.Keys == {};
    if regs != [] {
      ClientAt(regs, 0);
    }
    forall q ensures q !in b.handlers {
      assert Lookup(b.handlers, q) == HandlersOf(regs, q) == [];
    }
  }

  /** A session that registers a second id loses the first: after the session ended the first is still connected. */
  lemma SecondRegistrationLeaks(x: Session, b: Broker, c: ClientId, p: Payload, now: int, net: Net,
                                st: EventStore.Storage)
    requires x.identity == Some(c) && c in b.connected
    requires p.RegisterPayload? && AllValid(p.queries) && p.client.Some? && p.client.value != c
    ensures var turn := TakeTurn(x, b, Message(p), now, net, st);
            c in TakeTurn(turn.session, turn.broker, EndOfStream, now, net, st).broker.connected
  {
  }

  // ---------- whose client a session disconnects ----------

  /** A running session whose id is connected is the one that connected it: the client is reached on the session's
      channel. */
  ghost predicate OwnClients(w: World) {
    forall id :: id in w.sessions ==> OwnsIdentity(w, id)
  }

  ghost predicate OwnsIdentity(w: World, id: nat)
    requires id in w.sessions
  {
    var x := w.sessions[id];
    x.running && x.identity.Some? && x.identity.value in w.system.broker.connected ==>
      w.system.broker.connected[x.identity.value].tx == x.tx
  }

  /** Were the session to end now, it would disconnect nobody who is not reached on its channel. */
  ghost predicate EndsSafely(w: World, id: nat, now: int, net: Net, st: EventStore.Storage)
    requires id in w.sessions
  {
    var x, b := w.sessions[id], w.system.broker;
    forall c :: c in b.connected && c !in Leave(x, b, now, net, st).broker.connected ==> b.connected[c].tx == x.tx
  }

  /** The end of any running session disconnects only its own client exactly when every such session owns its
      identity. */
  lemma EndsSafelyExactly(w: World, now: int, net: Net, st: EventStore.Storage)
    ensures (forall id :: id in w.sessions && w.sessions[id].running ==> EndsSafely(w, id, now, net, st))
            <==> OwnClients(w)
  {
    forall id | id in w.sessions && w.sessions[id].running
      ensures EndsSafely(w, id, now, net, st) <==> OwnsIdentity(w, id)
    {
      var x, b := w.sessions[id], w.system.broker;
      if x.identity.Some? {
        var c := x.identity.value;
        assert Leave(x, b, now, net, st).broker.connected.Keys == b.connected.Keys - {c};
      }
    }
    forall id | id in w.sessions && !w.sessions[id].running ensures OwnsIdentity(w, id) {
    }
  }

  /** A session asks for an id that is connected on another channel, or is admitted under an id
      that another running session, on another channel, still has. */
  ghost predicate TakesOver(w: World, step: WorldStep) {
    && step.TurnOf? && step.id in w.sessions && step.item.Message?
    && var x := w.sessions[step.id];
    && var m := FromPayload(step.item.payload, x.identity, x.tx);
    && m.Some? && m.value.RegisterClient?
    && var c, connected := m.value.client, w.system.broker.connected;
    if c in connected then connected[c].tx != x.tx
    else step.net(c, x.tx, ClientRegistered(c)) && HeldOnAnotherChannel(w, c, x.tx)
  }

  ghost predicate HeldOnAnotherChannel(w: World, c: ClientId, tx: Tx) {
    exists id :: id in w.sessions && w.sessions[id].running && w.sessions[id].identity == Some(c)
        && w.sessions[id].tx != tx
  }

  /** A message other than a registration moves no client to another channel. */
  lemma ChannelsStay(b: Broker, m: ClientMessage, now: int, net: Net, st: EventStore.Storage)
    ensures var b' := HandleMessage(b, m, now, net, st).state;
            forall c :: c in b'.connected && (c in b.connected || !m.RegisterClient?) ==>
                          c in b.connected && b'.connected[c].tx == b.connected[c].tx
    ensures m.RegisterClient? ==>
              var b' := HandleMessage(b, m, now, net, st).state;
              b'.connected == if m.client in b.connected
                  || !net(m.client, m.tx, ClientRegistered(m.client)) then b.connected
                              else b.connected[m.client := ClientInfo(m.tx, now)]
  {
    var b1 := Touch(b, m.Source(), now);
    assert b1.connected.Keys == b.connected.Keys;
    if !m.RegisterClient? && !m.DisconnectClient? {
      OthersKeepClients(b1, m, now, net, st);
    }
  }

  /** A turn keeps every session the owner of its identity exactly when it takes no id over. */
  lemma TurnKeepsOwners(limits: Limits, w: World, step: WorldStep)
    requires OwnClients(w) && Possible(limits, w, step) && step.TurnOf?
    ensures OwnClients(Proceed(w, step)) <==> !TakesOver(w, step)
  {
    var w', id, x := Proceed(w, step), step.id, w.sessions[step.id];
    var b, now := w.system.broker, w.system.now;
    var parsed := if step.item.Message? then FromPayload(step.item.payload, x.identity, x.tx) else None;
    assert forall other :: other in w.sessions && other != id ==> w'.sessions[other] == w.sessions[other];
    if parsed.Some? {
      ChannelsStay(b, parsed.value, now, step.net, step.st);
    } else if !step.item.Empty? && x.identity.Some? {
      ChannelsStay(b, DisconnectClient(x.identity.value), now, step.net, step.st);
    }
    if parsed.Some? && parsed.value.RegisterClient? {
      RegistrationKeepsOwners(limits, w, step, parsed.value);
    } else {
      forall other | other in w'.sessions ensures OwnsIdentity(w', other) {
        assert OwnsIdentity(w, other);
      }
    }
  }

  lemma RegistrationKeepsOwners(limits: Limits, w: World, step: WorldStep, m: ClientMessage)
    requires OwnClients(w) && Possible(limits, w, step) && step.TurnOf? && step.item.Message? && m.RegisterClient?
    requires FromPayload(step.item.payload, w.sessions[step.id].identity, w.sessions[step.id].tx) == Some(m)
    ensures OwnClients(Proceed(w, step)) <==> !TakesOver(w, step)
  {
    var w', id, x, c := Proceed(w, step), step.id, w.sessions[step.id], m.client;
    ChannelsStay(w.system.broker, m, w.system.now, step.net, step.st);
    assert w'.sessions[id] == x.(identity := Some(c));
    assert forall other :: other in w.sessions && other != id ==> w'.sessions[other] == w.sessions[other];
    if TakesOver(w, step) {
      if c in w.system.broker.connected {
        assert !OwnsIdentity(w', id);
      } else {
        var other :| other in w.sessions && w.sessions[other].running && w.sessions[other].identity == Some(c)
            && w.sessions[other].tx != x.tx;
        assert !OwnsIdentity(w', other);
      }
    } else {
      forall other | other in w'.sessions ensures OwnsIdentity(w', other) {
        assert OwnsIdentity(w, other);
      }
    }
  }

  lemma BackgroundKeepsOwners(limits: Limits, w: World, step: WorldStep)
    requires OwnClients(w) && Possible(limits, w, step) && !step.TurnOf?
    ensures OwnClients(Proceed(w, step))
  {
    var w' := Proceed(w, step);
    forall id | id in w'.sessions ensures OwnsIdentity(w', id) {
      if id in w.sessions {
        assert OwnsIdentity(w, id);
      }
      var x := w'.sessions[id];
      if step.Background? && step.step.Tick? && x.identity.Some? && x.identity.value in w'.system.broker.connected {
        var t := step.step;
        ExpireAllKeepsClients(ProbeAll(w.system.broker, t.olds, w.system.now, t.net).state, t.expired, t.net);
        ProbeAllRefreshes(w.system.broker, t.olds, w.system.now, t.net, x.identity.value);
      }
    }
  }

  ghost predicate NeverTakesOver(w: World, steps: seq<WorldStep>)
    decreases |steps|
  {
    steps == [] ||
    (NeverTakesOver(w, steps[..|steps| - 1]) && !TakesOver(After(w, steps[..|steps| - 1]), steps[|steps| - 1]))
  }

  ghost predicate AlwaysOwnClients(w: World, steps: seq<WorldStep>)
    decreases |steps|
  {
    OwnClients(After(w, steps)) && (steps == [] || AlwaysOwnClients(w, steps[..|steps| - 1]))
  }

  /** In any history, the end of any session would at all times disconnect only its own client
      exactly when no session ever takes an id over. */
  lemma {:induction false} OwnersAlwaysExactly(limits: Limits, w: World, steps: seq<WorldStep>)
    requires OwnClients(w) && IsHistory(limits, w, steps)
    ensures AlwaysOwnClients(w, steps) <==> NeverTakesOver(w, steps)
    decreases |steps|
  {
    if steps != [] {
      var front, last := steps[..|steps| - 1], steps[|steps| - 1];
      OwnersAlwaysExactly(limits, w, front);
      if AlwaysOwnClients(w, front) {
        OwnersAtEnd(w, front);
        if last.TurnOf? {
          TurnKeepsOwners(limits, After(w, front), last);
        } else {
          BackgroundKeepsOwners(limits, After(w, front), last);
        }
      }
    }
  }

  lemma OwnersAtEnd(w: World, steps: seq<WorldStep>)
    requires AlwaysOwnClients(w, steps)
    ensures OwnClients(After(w, steps))
  {
  }

  /** One way to take an id over: a session whose registration was refused disconnects the id's holder when it ends. */
  lemma RefusedSessionDisconnectsHolder(x: Session, b: Broker, p: Payload, now: int, net: Net, st: EventStore.Storage)
    requires p.RegisterPayload? && AllValid(p.queries) && p.client.Some? && p.client.value in b.connected
    ensures var turn := TakeTurn(x, b, Message(p), now, net, st);
            && turn.broker == b
            && p.client.value !in TakeTurn(turn.session, turn.broker, EndOfStream, now, net, st).broker.connected
  {
  }
}

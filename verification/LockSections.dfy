/** The broker one lock section at a time: handlers release their locks between sections, so tasks interleave
    (src/domain/state.rs:168-192, src/domain/state.rs:194-485). */
module LockSections {
  import opened Ids
  import opened Messages
  import opened RoundRobin
  import opened QueryHandlers
  import opened EventStore
  import opened StateMachine
  import opened Requests

  /** Where a task is between two lock sections, with the values it copied out of the tables. */
  datatype Task =
    | Arrived(m: ClientMessage)
    | Touched(m: ClientMessage)
    | Admitted(m: ClientMessage)                                            // told it is registered
    | Inserted(m: ClientMessage)                                            // in the client table only
    | Looked(m: ClientMessage, requester: Option<Tx>)                       // read its requester
    | Unique(m: ClientMessage, requester: Option<Tx>)                       // saw no open request with its id
    | Chose(m: ClientMessage, requester: Option<Tx>, responder: ClientId)
    | Asked(m: ClientMessage, responder: ClientId)                          // sent the request, not recorded it
    | Found(m: ClientMessage, request: Ongoing)                             // read the open request it answers
    | Delivered(r: RequestId)                                               // sent the answer, not closed the request
    | Stored(m: ClientMessage, row: SourceEvent)
    | Unlisted(c: ClientId)                                                 // out of the client table only
    | Expiring(request: Ongoing)                                            // read as expired
    | Noticed(r: RequestId)                                                 // told its requester, not dropped it
    | Done

  /** The message kinds a task can hold at each point. */
  predicate WellFormed(t: Task) {
    match t
    case Admitted(m) => m.RegisterClient?
    case Inserted(m) => m.RegisterClient?
    case Looked(m, _) => m.QueryRequest?
    case Unique(m, _) => m.QueryRequest?
    case Chose(m, _, _) => m.QueryRequest?
    case Asked(m, _) => m.QueryRequest?
    case Found(m, _) => m.QueryResponse? || m.QueryHandlingFailed?
    case Stored(m, _) => m.RegisterSourceEvent?
    case _ => true
  }

  datatype Sectioned = Sectioned(shared: Broker, task: Task, out: seq<Event>)

  function Tell(c: ClientId, tx: Option<Tx>, msg: ServerMessage, net: Net): seq<Event> {
    if tx.Some? then [Sent(c, tx.value, msg, net(c, tx.value, msg))] else []
  }

  function TxOf(b: Broker, c: ClientId): Option<Tx> {
    if c in b.connected then Some(b.connected[c].tx) else None
  }

  function AnswerOf(m: ClientMessage, o: Ongoing): ServerMessage
    requires m.QueryResponse? || m.QueryHandlingFailed?
  {
    if m.QueryResponse? then QueryResponded(m.requestId, m.result)
    else QueryRequestedFailed(m.requestId, o.queryId, HandlingError(m.reason))
  }

  /** The first section after `last_seen` was updated. */
  function Begin(b: Broker, m: ClientMessage, net: Net, st: Storage): Sectioned {
    match m
    case RegisterClient(c, _, tx) =>
      if c in b.connected then Sectioned(b, Done, Tell(c, Some(tx), ClientRegistrationFailed(c), net))
      else Sectioned(b, if net(c, tx, ClientRegistered(c)) then Admitted(m) else Done,
                     Tell(c, Some(tx), ClientRegistered(c), net))
    case QueryRequest(_, requester, _, _) => Sectioned(b, Looked(m, TxOf(b, requester)), [])
    case QueryResponse(r, _, _) => Sectioned(b, if r in b.ongoing then Found(m, b.ongoing[r]) else Done, [])
    case QueryHandlingFailed(r, _, _) => Sectioned(b, if r in b.ongoing then Found(m, b.ongoing[r]) else Done, [])
    case RegisterSourceEvent(_, _, aggregateId, aggregateType, payload) =>
      var (rows, result) := Save(b.rows, NewEvent(aggregateId, aggregateType, payload), st);
      Sectioned(b.(rows := rows), if result.Saved? then Stored(m, result.event) else Done, [])
    case Heartbeat(_) => Sectioned(b, Done, [])
    case DisconnectClient(c) => Sectioned(b.(connected := b.connected - {c}), Unlisted(c), [])
  }

  /** One lock section of a task, with the send that follows it. */
  function Section(b: Broker, t: Task, now: int, net: Net, st: Storage): Sectioned
    requires WellFormed(t)
  {
    match t
    case Arrived(m) => Sectioned(Touch(b, m.Source(), now), Touched(m), [])
    case Touched(m) => Begin(b, m, net, st)
    case Admitted(m) => Sectioned(b.(connected := b.connected[m.client := ClientInfo(m.tx, now)]), Inserted(m), [])
    case Inserted(m) =>
      Sectioned(b.(handlers := AddAll(b.handlers, m.client, m.queries)), Done, [Registered(m.client, m.queries, m.tx)])
    case Looked(m, requester) =>
      if m.requestId !in b.ongoing then Sectioned(b, Unique(m, requester), [])
      else Sectioned(b, Done,
                     if b.ongoing[m.requestId].IsSame(m) then [] else Tell(m.requester, requester, Duplicated(m), net))
    case Unique(m, requester) =>
      var b1 := b.(cursor := SelectCursor(b.handlers, b.cursor, m.queryId));
      (match Select(b.handlers, b.cursor, m.queryId)
       case Selected(c) => Sectioned(b1, Chose(m, requester, c), [])
       case HandlerNotFound => Sectioned(b1, Done, Tell(m.requester, requester, NotFound(m), net))
       case ResponderNotFound => Sectioned(b1, Done, []))
    case Chose(m, requester, responder) =>
      if responder !in b.connected then Sectioned(b, Done, [])
      else if Reaches(b, responder, Ask(m), net) then
        Sectioned(b, Task.Asked(m, responder), Notify(b, responder, Ask(m), net))
      else Sectioned(b, Done, Notify(b, responder, Ask(m), net) + Tell(m.requester, requester, NotFound(m), net))
    case Asked(m, responder) =>
      var o := Ongoing(m.requestId, m.queryId, m.parameters, m.requester, responder, now);
      Sectioned(b.(ongoing := b.ongoing[m.requestId := o]), Done, [Dispatched(o)])
    case Found(m, o) =>
      Sectioned(b, if Reaches(b, o.requester, AnswerOf(m, o), net) then Delivered(m.requestId) else Done,
                Notify(b, o.requester, AnswerOf(m, o), net))
    case Delivered(r) => Sectioned(b.(ongoing := b.ongoing - {r}), Done, [])
    case Stored(m, row) =>
      if m.source !in b.connected then Sectioned(b, Done, [])
      else Sectioned(b.(jobs := b.jobs + [row]), Done,
          Notify(b, m.source, SourceEventRegistered(row.id, row.clock), net))
    case Unlisted(c) => Sectioned(b.(handlers := RemoveClient(b.handlers, c)), Done, [Disconnected(c)])
    case Expiring(o) =>
      Sectioned(b, Noticed(o.requestId),
                Notify(b, o.requester, QueryRequestedFailed(o.requestId, o.queryId, QueryTimedOut), net))
    case Noticed(r) =>
      Sectioned(b.(ongoing := b.ongoing - {r}), Done,
                if r in b.ongoing then [TimedOut(r, b.ongoing[r].queryId)] else [])
    case Done => Sectioned(b, Done, [])
  }

  // ---------- a task that is not interrupted is the atomic handler ----------

  function Remaining(t: Task): nat {
    match t
    case Arrived(_) => 6
    case Touched(_) => 5
    case Looked(_, _) => 4
    case Unique(_, _) => 3
    case Chose(_, _, _) => 2
    case Admitted(_) => 2
    case Found(_, _) => 2
    case Expiring(_) => 2
    case Done => 0
    case _ => 1
  }

  function RunAlone(b: Broker, t: Task, now: int, net: Net, st: Storage): Outcome
    requires WellFormed(t)
    decreases Remaining(t)
  {
    if t.Done? then Outcome(b, [])
    else
      var s := Section(b, t, now, net, st);
      var rest := RunAlone(s.shared, s.task, now, net, st);
      Outcome(rest.state, s.out + rest.out)
  }

  lemma AloneStep(b: Broker, t: Task, now: int, net: Net, st: Storage)
    requires WellFormed(t) && !t.Done?
    ensures var s := Section(b, t, now, net, st);
            RunAlone(b, t, now, net, st) == Outcome(RunAlone(s.shared, s.task, now, net, st).state,
                                                    s.out + RunAlone(s.shared, s.task, now, net, st).out)
  {
  }

  lemma AloneRegister(b: Broker, m: ClientMessage, now: int, net: Net, st: Storage)
    requires m.RegisterClient?
    ensures RunAlone(b, Touched(m), now, net, st) == Register(b, m, now, net)
  {
    AloneStep(b, Touched(m), now, net, st);
    var s1 := Begin(b, m, net, st);
    if s1.task.Admitted? {
      AloneStep(b, s1.task, now, net, st);
      var s2 := Section(b, s1.task, now, net, st);
      AloneStep(s2.shared, s2.task, now, net, st);
    }
  }

  lemma AloneRequest(b: Broker, m: ClientMessage, now: int, net: Net, st: Storage)
    requires m.QueryRequest?
    ensures RunAlone(b, Touched(m), now, net, st) == Request(b, m, now, net)
  {
    AloneStep(b, Touched(m), now, net, st);
    var looked := Looked(m, TxOf(b, m.requester));
    AloneStep(b, looked, now, net, st);
    var s2 := Section(b, looked, now, net, st);
    if s2.task.Unique? {
      AloneStep(b, s2.task, now, net, st);
      var s3 := Section(b, s2.task, now, net, st);
      if s3.task.Chose? {
        AloneStep(s3.shared, s3.task, now, net, st);
        var s4 := Section(s3.shared, s3.task, now, net, st);
        if s4.task.Asked? {
          AloneStep(s4.shared, s4.task, now, net, st);
        }
      }
    }
  }

  lemma AloneAnswer(b: Broker, m: ClientMessage, now: int, net: Net, st: Storage)
    requires m.QueryResponse? || m.QueryHandlingFailed?
    ensures RunAlone(b, Touched(m), now, net, st) == Dispatch(b, m, now, net, st)
  {
    AloneStep(b, Touched(m), now, net, st);
    var s1 := Begin(b, m, net, st);
    if s1.task.Found? {
      AloneStep(b, s1.task, now, net, st);
      var s2 := Section(b, s1.task, now, net, st);
      if s2.task.Delivered? {
        AloneStep(b, s2.task, now, net, st);
      }
    }
  }

  /** A message task that runs without interruption does exactly what the atomic handler does. */
  lemma UninterruptedIsAtomic(b: Broker, m: ClientMessage, now: int, net: Net, st: Storage)
    ensures RunAlone(b, Arrived(m), now, net, st) == HandleMessage(b, m, now, net, st)
  {
    var b1 := Touch(b, m.Source(), now);
    AloneStep(b, Arrived(m), now, net, st);
    match m
    case RegisterClient(_, _, _) => AloneRegister(b1, m, now, net, st);
    case QueryRequest(_, _, _, _) => AloneRequest(b1, m, now, net, st);
    case QueryResponse(_, _, _) => AloneAnswer(b1, m, now, net, st);
    case QueryHandlingFailed(_, _, _) => AloneAnswer(b1, m, now, net, st);
    case _ =>
      AloneStep(b1, Touched(m), now, net, st);
      var s := Begin(b1, m, net, st);
      if !s.task.Done? {
        AloneStep(s.shared, s.task, now, net, st);
      }
  }

  /** An expiry that runs without interruption does exactly what the tick does to one request. */
  lemma UninterruptedExpiryIsAtomic(b: Broker, o: Ongoing, now: int, net: Net, st: Storage)
    ensures RunAlone(b, Expiring(o), now, net, st) == Expire(b, o, net)
  {
    AloneStep(b, Expiring(o), now, net, st);
    AloneStep(b, Noticed(o.requestId), now, net, st);
  }

  // ---------- every interleaving ----------

  /** The shared tables and the tasks under way. */
  datatype Pool = Pool(shared: Broker, tasks: seq<Task>)

  datatype Move =
    | Spawn(m: ClientMessage)
    | SpawnExpiry(r: RequestId)
    | Run(i: nat, now: int, net: Net, st: Storage)
    | RunJob(job: nat, order: seq<ClientId>, net: Net)

  datatype Moved = Moved(pool: Pool, out: seq<Event>)

  ghost predicate CanMove(p: Pool, move: Move) {
    match move
    case Spawn(_) => true
    case SpawnExpiry(r) => r in p.shared.ongoing
    case Run(i, _, _, _) => i < |p.tasks|
    case RunJob(job, order, _) => job < |p.shared.jobs| && Lists(order, p.shared.connected.Keys)
  }

  function MakeMove(p: Pool, move: Move): Moved {
    match move
    case Spawn(m) => Moved(p.(tasks := p.tasks + [Arrived(m)]), [])
    case SpawnExpiry(r) =>
      if r in p.shared.ongoing then Moved(p.(tasks := p.tasks + [Expiring(p.shared.ongoing[r])]), []) else Moved(p, [])
    case Run(i, now, net, st) =>
      if i < |p.tasks| && WellFormed(p.tasks[i]) then
        var s := Section(p.shared, p.tasks[i], now, net, st);
        Moved(Pool(s.shared, p.tasks[i := s.task]), s.out)
      else Moved(p, [])
    case RunJob(job, order, net) =>
      if job < |p.shared.jobs| then
        var r := BroadcastWith(p.shared, job, order, net);
        Moved(p.(shared := r.state), r.out)
      else Moved(p, [])
  }

  function Play(p: Pool, moves: seq<Move>): Moved
    decreases |moves|
  {
    if moves == [] then Moved(p, [])
    else
      var before := Play(p, moves[..|moves| - 1]);
      var last := MakeMove(before.pool, moves[|moves| - 1]);
      Moved(last.pool, before.out + last.out)
  }

  /** Moves of tasks that exist, in which broadcasts visit every connected client once. */
  ghost predicate IsPlay(p: Pool, moves: seq<Move>)
    decreases |moves|
  {
    moves == [] || (IsPlay(p, moves[..|moves| - 1]) && CanMove(Play(p, moves[..|moves| - 1]).pool, moves[|moves| - 1]))
  }

  /** What holds between any two lock sections. */
  ghost predicate SectionInvariant(p: Pool) {
    && NoEmptyLists(p.shared.handlers)
    && FiledUnderOwnId(p.shared.ongoing)
    && GapFree(p.shared.rows)
    && (forall i :: 0 <= i < |p.shared.jobs| ==> p.shared.jobs[i] in p.shared.rows)
    && (forall i :: 0 <= i < |p.tasks| ==>
          WellFormed(p.tasks[i]) && (p.tasks[i].Stored? ==> p.tasks[i].row in p.shared.rows))
  }

  /** A section leaves no handler list empty and files requests under their own id. */
  lemma {:induction false} SectionKeepsIndex(b: Broker, t: Task, now: int, net: Net, st: Storage)
    requires WellFormed(t) && NoEmptyLists(b.handlers) && FiledUnderOwnId(b.ongoing)
    ensures var s := Section(b, t, now, net, st);
            NoEmptyLists(s.shared.handlers) && FiledUnderOwnId(s.shared.ongoing) && WellFormed(s.task)
  {
    if t.Touched? {
      BeginKeepsIndex(b, t.m, net, st);
    } else if t.Inserted? {
      AddKeepsNonEmpty(b.handlers, t.m.client, t.m.queries);
    }
  }

  lemma BeginKeepsIndex(b: Broker, m: ClientMessage, net: Net, st: Storage)
    ensures var s := Begin(b, m, net, st);
            s.shared.handlers == b.handlers && s.shared.ongoing == b.ongoing && WellFormed(s.task)
  {
  }

  /** A section appends at most one row with the next clock, and queues only the row its task stored. */
  lemma SectionKeepsLog(b: Broker, t: Task, now: int, net: Net, st: Storage)
    requires WellFormed(t) && GapFree(b.rows)
    ensures var s := Section(b, t, now, net, st);
            && GapFree(s.shared.rows) && b.rows <= s.shared.rows
            && (s.task.Stored? ==> s.task.row in s.shared.rows)
            && (s.shared.jobs == b.jobs || (t.Stored? && s.shared.jobs == b.jobs + [t.row]))
  {
    var s := Section(b, t, now, net, st);
    if t.Touched? && t.m.RegisterSourceEvent? {
      SaveAppendsNextRow(b.rows, NewEvent(t.m.aggregateId, t.m.aggregateType, t.m.payload), st);
      if s.task.Stored? {
        assert s.shared.rows[|b.rows|] == s.task.row;
      }
    } else {
      assert s.shared.rows == b.rows;
    }
  }

  lemma InPrefix<T>(xs: seq<T>, ys: seq<T>, x: T)
    requires xs <= ys && x in xs
    ensures x in ys
  {
    var i :| 0 <= i < |xs| && xs[i] == x;
    assert ys[i] == x;
  }

  lemma MoveKeepsInvariant(p: Pool, move: Move)
    requires SectionInvariant(p)
    ensures SectionInvariant(MakeMove(p, move).pool)
  {
    var p' := MakeMove(p, move).pool;
    if move.Run? && move.i < |p.tasks| {
      var t := p.tasks[move.i];
      SectionKeepsIndex(p.shared, t, move.now, move.net, move.st);
      SectionKeepsLog(p.shared, t, move.now, move.net, move.st);
      forall i | 0 <= i < |p'.tasks| && p'.tasks[i].Stored? ensures p'.tasks[i].row in p'.shared.rows {
        if i != move.i {
          InPrefix(p.shared.rows, p'.shared.rows, p.tasks[i].row);
        }
      }
      forall i | 0 <= i < |p'.shared.jobs| ensures p'.shared.jobs[i] in p'.shared.rows {
        InPrefix(p.shared.rows, p'.shared.rows, p'.shared.jobs[i]);
      }
    }
  }

  /** Under every interleaving of lock sections: no handler list is ever empty, every ongoing entry is filed under its
      own id, and the event log is gap-free. */
  lemma {:induction false} EveryInterleaving(p: Pool, moves: seq<Move>)
    requires SectionInvariant(p)
    ensures SectionInvariant(Play(p, moves).pool)
    decreases |moves|
  {
    if moves != [] {
      EveryInterleaving(p, moves[..|moves| - 1]);
      MoveKeepsInvariant(Play(p, moves[..|moves| - 1]).pool, moves[|moves| - 1]);
    }
  }

  /** Whatever ran before, a selection returns a member of the current list, and never ResponderNotFound. */
  lemma {:induction false} SelectionUnderInterleaving(p: Pool, moves: seq<Move>, i: nat, now: int, net: Net,
                                                      st: Storage)
    requires SectionInvariant(p)
    requires i < |Play(p, moves).pool.tasks| && Play(p, moves).pool.tasks[i].Unique?
    requires Play(p, moves).pool.tasks[i].m.QueryRequest?
    ensures var now' := Play(p, moves).pool;
            var q := now'.tasks[i].m.queryId;
            var task := MakeMove(now', Run(i, now, net, st)).pool.tasks[i];
            && Select(now'.shared.handlers, now'.shared.cursor, q) != ResponderNotFound
            && (task.Chose? <==> q in now'.shared.handlers)
            && (task.Chose? ==> task.responder in now'.shared.handlers[q])
  {
    EveryInterleaving(p, moves);
    var p' := Play(p, moves).pool;
    var t := p'.tasks[i];
    SelectReturnsMember(p'.shared.handlers, p'.shared.cursor, t.m.queryId);
  }
}

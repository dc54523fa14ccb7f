/** When interleaved lock sections keep what atomic handlers promise (src/domain/state.rs:194-485). */
module Interleavings {
  import opened Ids
  import opened Messages
  import opened QueryHandlers
  import opened EventStore
  import opened StateMachine
  import opened Requests
  import opened LockSections
  import Registry

  /** The request id of a request task that found it unused. */
  function Asking(t: Task): Option<RequestId>
    requires WellFormed(t)
  {
    match t
    case Unique(m, _) => Some(m.requestId)
    case Chose(m, _, _) => Some(m.requestId)
    case Asked(m, _) => Some(m.requestId)
    case _ => None
  }

  /** The request id of an answer or expiry task that found it open. */
  function Closing(t: Task): Option<RequestId>
    requires WellFormed(t)
  {
    match t
    case Found(m, _) => Some(m.requestId)
    case Delivered(r) => Some(r)
    case Expiring(o) => Some(o.requestId)
    case Noticed(r) => Some(r)
    case _ => None
  }

  ghost predicate AskedElsewhere(p: Pool, i: int, r: RequestId) {
    exists j :: 0 <= j < |p.tasks| && j != i && WellFormed(p.tasks[j]) && Asking(p.tasks[j]) == Some(r)
  }

  ghost predicate ClosedElsewhere(p: Pool, i: int, r: RequestId) {
    exists j :: 0 <= j < |p.tasks| && j != i && WellFormed(p.tasks[j]) && Closing(p.tasks[j]) == Some(r)
  }

  /** A request past its check is the only one with its id, which is not open; an answer past its check
      is the only one for its request, which is still open. */
  ghost predicate OrderlyTask(p: Pool, i: nat)
    requires i < |p.tasks|
  {
    var t := p.tasks[i];
    && WellFormed(t)
    && (Asking(t).Some? ==> Asking(t).value !in p.shared.ongoing && !AskedElsewhere(p, i, Asking(t).value))
    && (Closing(t).Some? ==> Closing(t).value in p.shared.ongoing && !ClosedElsewhere(p, i, Closing(t).value))
    && (t.Found? ==> t.request == p.shared.ongoing[t.m.requestId])
    && (t.Expiring? ==> t.request == p.shared.ongoing[t.request.requestId])
  }

  ghost predicate Orderly(p: Pool) {
    FiledUnderOwnId(p.shared.ongoing) && forall i :: 0 <= i < |p.tasks| ==> OrderlyTask(p, i)
  }

  /** A request finds its id unused, or an answer or expiry its request open, while another one has found the same. */
  ghost predicate Races(p: Pool, move: Move) {
    match move
    case Run(i, _, _, _) =>
      i < |p.tasks| &&
      (match p.tasks[i]
       case Looked(m, _) => m.QueryRequest? && m.requestId !in p.shared.ongoing && AskedElsewhere(p, i, m.requestId)
       case Touched(m) =>
         (m.QueryResponse? || m.QueryHandlingFailed?) && m.requestId in p.shared.ongoing
             && ClosedElsewhere(p, i, m.requestId)
       case _ => false)
    case SpawnExpiry(r) => r in p.shared.ongoing && ClosedElsewhere(p, -1, r)
    case _ => false
  }

  /** Every client listed as a handler is connected, or its disconnection is under way. */
  ghost predicate NoStaleHandler(p: Pool) {
    forall q, c :: c in Lookup(p.shared.handlers, q) ==> c in p.shared.connected || Leaving(p, c)
  }

  ghost predicate Leaving(p: Pool, c: ClientId) {
    Unlisted(c) in p.tasks
  }

  /** A registration lists its queries after its client was disconnected again. */
  ghost predicate Strays(p: Pool, move: Move) {
    && move.Run? && move.i < |p.tasks| && p.tasks[move.i].Inserted?
    && var m := p.tasks[move.i].m;
    m.RegisterClient? && m.queries != [] && m.client !in p.shared.connected && !Leaving(p, m.client)
  }

  /** Every selected responder is connected. */
  ghost predicate RespondersConnected(p: Pool) {
    forall i :: 0 <= i < |p.tasks| && p.tasks[i].Chose? ==> p.tasks[i].responder in p.shared.connected
  }

  /** A selected responder is disconnected before it is asked, or a responder is selected that is not connected. */
  ghost predicate Deserts(p: Pool, move: Move) {
    && move.Run? && move.i < |p.tasks| && WellFormed(p.tasks[move.i])
    && match p.tasks[move.i]
       case Touched(m) =>
         m.DisconnectClient? && exists j :: 0 <= j < |p.tasks| && p.tasks[j].Chose? && p.tasks[j].responder == m.client
       case Unique(m, _) =>
         var selection := Select(p.shared.handlers, p.shared.cursor, m.queryId);
         selection.Selected? && selection.client !in p.shared.connected
       case _ => false
  }

  /** The client of a registration that was told it is registered and is not finished. */
  function Entering(t: Task): Option<ClientId>
    requires WellFormed(t)
  {
    match t
    case Admitted(m) => Some(m.client)
    case Inserted(m) => Some(m.client)
    case _ => None
  }

  ghost predicate EnteringElsewhere(p: Pool, i: int, c: ClientId) {
    exists j :: 0 <= j < |p.tasks| && j != i && WellFormed(p.tasks[j]) && Entering(p.tasks[j]) == Some(c)
  }

  /** While a registration is under way, its client is neither registered nor disconnected by another task. */
  ghost predicate AloneWithClient(p: Pool, i: nat)
    requires i < |p.tasks| && WellFormed(p.tasks[i])
  {
    var t := p.tasks[i];
    Entering(t).Some? ==>
      && !EnteringElsewhere(p, i, Entering(t).value) && !Leaving(p, Entering(t).value)
      && (t.Admitted? <==> t.m.client !in p.shared.connected)
  }

  ghost predicate OneTaskPerClient(p: Pool) {
    forall i :: 0 <= i < |p.tasks| ==> WellFormed(p.tasks[i]) && AloneWithClient(p, i)
  }

  /** A registration is admitted while another registration or a disconnection of its client is under way,
      or a disconnection starts while a registration of its client is. */
  ghost predicate Collides(p: Pool, move: Move) {
    && move.Run? && move.i < |p.tasks|
    && match p.tasks[move.i]
       case Touched(RegisterClient(c, _, tx)) =>
         c !in p.shared.connected && move.net(c, tx, ClientRegistered(c))
             && (EnteringElsewhere(p, move.i, c) || Leaving(p, c))
       case Touched(DisconnectClient(c)) => EnteringElsewhere(p, move.i, c)
       case _ => false
  }

  // ---------- four concerns, each kept exactly by the moves that do not break it ----------

  datatype Concern = OneAtATime | NoStrays | NoDesertion | OneEntry

  ghost predicate Holds(k: Concern, p: Pool) {
    match k
    case OneAtATime => Orderly(p)
    case NoStrays => NoStaleHandler(p)
    case NoDesertion => RespondersConnected(p)
    case OneEntry => OneTaskPerClient(p)
  }

  ghost predicate Breaks(k: Concern, p: Pool, move: Move) {
    match k
    case OneAtATime => Races(p, move)
    case NoStrays => Strays(p, move)
    case NoDesertion => Deserts(p, move)
    case OneEntry => Collides(p, move)
  }

  lemma MoveKeepsRespondersExactly(p: Pool, move: Move)
    requires SectionInvariant(p) && RespondersConnected(p)
    ensures RespondersConnected(MakeMove(p, move).pool) <==> !Deserts(p, move)
  {
    var p' := MakeMove(p, move).pool;
    if move.Run? && move.i < |p.tasks| {
      var i, t := move.i, p.tasks[move.i];
      assert forall j :: 0 <= j < |p.tasks| && j != i ==> p'.tasks[j] == p.tasks[j];
      if Deserts(p, move) && t.Unique? {
        assert p'.tasks[i].Chose?;
      } else if Deserts(p, move) {
        var j :| 0 <= j < |p.tasks| && p.tasks[j].Chose? && p.tasks[j].responder == t.m.client;
        assert p'.tasks[j].Chose?;
      }
    }
  }

  /** Moves other than the end of a disconnection leave a pending disconnection pending. */
  lemma LeavingStays(p: Pool, move: Move, c: ClientId)
    requires Leaving(p, c)
    requires move.Run? && move.i < |p.tasks| ==> p.tasks[move.i] != Unlisted(c)
    ensures Leaving(MakeMove(p, move).pool, c)
  {
    var j :| 0 <= j < |p.tasks| && p.tasks[j] == Unlisted(c);
    assert MakeMove(p, move).pool.tasks[j] == Unlisted(c);
  }

  /** The end of a registration adds its client to the lists of its queries. */
  lemma ListedAfterInsertion(index: Index, m: ClientMessage, q: QueryId, c: ClientId)
    requires m.RegisterClient?
    ensures c in Lookup(AddAll(index, m.client, m.queries), q) <==>
              c in Lookup(index, q) || (c == m.client && q in m.queries)
  {
    LookupAfterAdd(index, m.client, m.queries, q);
    Registry.OccurrencesPositive(m.queries, q);
    var added := Copies(m.client, Occurrences(m.queries, q));
    assert added != [] ==> added[0] in added;
  }

  lemma InsertionKeepsHandlersExactly(p: Pool, move: Move)
    requires SectionInvariant(p) && NoStaleHandler(p)
    requires move.Run? && move.i < |p.tasks| && p.tasks[move.i].Inserted?
    ensures NoStaleHandler(MakeMove(p, move).pool) <==> !Strays(p, move)
  {
    var p', m := MakeMove(p, move).pool, p.tasks[move.i].m;
    forall c ensures Leaving(p', c) <==> Leaving(p, c) {
      if Leaving(p, c) {
        LeavingStays(p, move, c);
      }
    }
    forall q, c
      ensures c in Lookup(p'.shared.handlers, q) <==>
                c in Lookup(p.shared.handlers, q) || (c == m.client && q in m.queries)
    {
      ListedAfterInsertion(p.shared.handlers, m, q, c);
    }
    if Strays(p, move) {
      assert m.client in Lookup(p'.shared.handlers, m.queries[0]);
    }
  }

  /** Sections other than the ends of registrations and disconnections list nobody,
      and only the start of a disconnection disconnects. */
  lemma OtherSectionsKeepHandlers(b: Broker, t: Task, now: int, net: Net, st: Storage)
    requires WellFormed(t) && !t.Inserted? && !t.Unlisted?
    ensures var s := Section(b, t, now, net, st);
            && s.shared.handlers == b.handlers
            && (forall c :: c in b.connected ==> c in s.shared.connected || s.task == Unlisted(c))
  {
    if t.Touched? {
      BeginKeepsIndex(b, t.m, net, st);
    }
  }

  lemma MoveKeepsHandlersExactly(p: Pool, move: Move)
    requires SectionInvariant(p) && NoStaleHandler(p)
    ensures NoStaleHandler(MakeMove(p, move).pool) <==> !Strays(p, move)
  {
    var p' := MakeMove(p, move).pool;
    if move.Run? && move.i < |p.tasks| && p.tasks[move.i].Inserted? {
      InsertionKeepsHandlersExactly(p, move);
    } else {
      forall q, c | c in Lookup(p'.shared.handlers, q) ensures c in p'.shared.connected || Leaving(p', c) {
        StillServed(p, move, q, c);
      }
    }
  }

  lemma StillServed(p: Pool, move: Move, q: QueryId, c: ClientId)
    requires SectionInvariant(p) && NoStaleHandler(p)
    requires move.Run? && move.i < |p.tasks| ==> !p.tasks[move.i].Inserted?
    requires c in Lookup(MakeMove(p, move).pool.shared.handlers, q)
    ensures c in MakeMove(p, move).pool.shared.connected || Leaving(MakeMove(p, move).pool, c)
  {
    var p' := MakeMove(p, move).pool;
    if move.Run? && move.i < |p.tasks| && p.tasks[move.i].Unlisted? {
      var d := p.tasks[move.i].c;
      LookupAfterRemove(p.shared.handlers, d, q);
      WithoutMembers(Lookup(p.shared.handlers, q), d);
      if Leaving(p, c) {
        LeavingStays(p, move, c);
      }
    } else {
      if move.Run? && move.i < |p.tasks| {
        OtherSectionsKeepHandlers(p.shared, p.tasks[move.i], move.now, move.net, move.st);
        assert p'.tasks[move.i] in p'.tasks;
      }
      assert c in Lookup(p.shared.handlers, q);
      if Leaving(p, c) {
        LeavingStays(p, move, c);
      }
    }
  }

  // ---------- one registration or disconnection of a client at a time ----------

  /** When a section lets a registration in, connects or disconnects a client. */
  lemma SectionOnClients(b: Broker, t: Task, now: int, net: Net, st: Storage)
    requires WellFormed(t)
    ensures var s := Section(b, t, now, net, st);
            && WellFormed(s.task)
            && (s.task.Admitted? ==> t == Touched(s.task.m) && s.task.m.client !in b.connected
                                     && net(s.task.m.client, s.task.m.tx, ClientRegistered(s.task.m.client)))
            && (s.task.Inserted? <==> t.Admitted?) && (s.task.Inserted? ==> s.task.m == t.m)
            && (s.task.Unlisted? <==> t.Touched? && t.m.DisconnectClient?)
                && (s.task.Unlisted? ==> s.task.c == t.m.client)
            && s.shared.connected.Keys == (if t.Admitted? then b.connected.Keys + {t.m.client}
                                           else if s.task.Unlisted? then b.connected.Keys - {s.task.c}
                                           else b.connected.Keys)
  {
  }

  /** A registration is let in or a disconnection starts although the client is busy. */
  lemma CollisionBreaksEntries(p: Pool, move: Move)
    requires OneTaskPerClient(p) && Collides(p, move)
    ensures !OneTaskPerClient(MakeMove(p, move).pool)
  {
    var p', i, c := MakeMove(p, move).pool, move.i, p.tasks[move.i].m.client;
    assert forall j :: 0 <= j < |p.tasks| && j != i ==> p'.tasks[j] == p.tasks[j];
    if Leaving(p, c) {
      LeavingStays(p, move, c);
    }
    if EnteringElsewhere(p, i, c) {
      var j :| 0 <= j < |p.tasks| && j != i && WellFormed(p.tasks[j]) && Entering(p.tasks[j]) == Some(c);
      assert EnteringElsewhere(p', i, c);
      if p.tasks[i].m.DisconnectClient? {
        assert p'.tasks[i] == Unlisted(c);
        assert Leaving(p', c);
        assert !AloneWithClient(p', j);
      }
    }
    if p.tasks[i].m.RegisterClient? {
      assert !AloneWithClient(p', i);
    }
  }

  /** Who else is busy with a client after task `i` ran. */
  lemma BusyAfter(p: Pool, move: Move, j: nat, c: ClientId)
    requires OneTaskPerClient(p) && move.Run? && move.i < |p.tasks| && j < |p.tasks|
    ensures var p' := MakeMove(p, move).pool;
            && WellFormed(p'.tasks[move.i])
            && (EnteringElsewhere(p', j, c) ==>
                  EnteringElsewhere(p, j, c) || (move.i != j && Entering(p'.tasks[move.i]) == Some(c)))
            && (Leaving(p', c) ==> Leaving(p, c) || p'.tasks[move.i] == Unlisted(c))
            && (j != move.i && Entering(p.tasks[j]) == Some(c) ==> EnteringElsewhere(p, move.i, c))
            && (j != move.i && Entering(p.tasks[move.i]) == Some(c) ==> EnteringElsewhere(p, j, c))
  {
    var p', i := MakeMove(p, move).pool, move.i;
    assert AloneWithClient(p, i) && AloneWithClient(p, j);
    SectionOnClients(p.shared, p.tasks[i], move.now, move.net, move.st);
    if EnteringElsewhere(p', j, c) {
      var k :| 0 <= k < |p'.tasks| && k != j && WellFormed(p'.tasks[k]) && Entering(p'.tasks[k]) == Some(c);
      assert k != i ==> p'.tasks[k] == p.tasks[k];
    }
    if Leaving(p', c) {
      var k :| 0 <= k < |p'.tasks| && p'.tasks[k] == Unlisted(c);
      assert k != i ==> p.tasks[k] == Unlisted(c);
    }
  }

  lemma RunKeepsEntries(p: Pool, move: Move, j: nat)
    requires OneTaskPerClient(p) && !Collides(p, move) && move.Run? && move.i < |p.tasks| && j < |p.tasks|
    ensures var p' := MakeMove(p, move).pool; WellFormed(p'.tasks[j]) && AloneWithClient(p', j)
  {
    var p', i := MakeMove(p, move).pool, move.i;
    assert AloneWithClient(p, i) && AloneWithClient(p, j);
    SectionOnClients(p.shared, p.tasks[i], move.now, move.net, move.st);
    if Entering(p'.tasks[j]).Some? {
      BusyAfter(p, move, j, Entering(p'.tasks[j]).value);
    }
  }

  lemma MoveKeepsEntriesExactly(p: Pool, move: Move)
    requires OneTaskPerClient(p)
    ensures OneTaskPerClient(MakeMove(p, move).pool) <==> !Collides(p, move)
  {
    var p' := MakeMove(p, move).pool;
    if Collides(p, move) {
      CollisionBreaksEntries(p, move);
    } else if move.Run? && move.i < |p.tasks| {
      forall j | 0 <= j < |p'.tasks| ensures WellFormed(p'.tasks[j]) && AloneWithClient(p', j) {
        RunKeepsEntries(p, move, j);
      }
    } else {
      forall j | 0 <= j < |p'.tasks| ensures WellFormed(p'.tasks[j]) && AloneWithClient(p', j) {
        if j < |p.tasks| {
          assert AloneWithClient(p, j);
        }
      }
    }
  }

  // ---------- one request and one answer at a time ----------

  /** What a section does to the open requests, and when a task gets past its check. */
  lemma SectionOnRequests(b: Broker, t: Task, now: int, net: Net, st: Storage)
    requires WellFormed(t) && FiledUnderOwnId(b.ongoing)
    ensures var s := Section(b, t, now, net, st);
            && WellFormed(s.task)
            && (Asking(s.task).Some? ==> Asking(s.task) == Asking(t)
                                         || (t.Looked? && Asking(s.task) == Some(t.m.requestId)
                                             && t.m.requestId !in b.ongoing))
            && (Closing(s.task).Some? ==> Closing(s.task) == Closing(t)
                                          || (t.Touched? && s.task.Found? && s.task.m == t.m
                                              && t.m.requestId in b.ongoing
                                              && s.task.request == b.ongoing[t.m.requestId]))
            && (s.task.Found? ==> t.Touched?) && !s.task.Expiring?
            && (t.Asked? ==> s.task.Done? && s.shared.ongoing.Keys == b.ongoing.Keys + {t.m.requestId}
                             && forall r :: r in b.ongoing && r != t.m.requestId
                                 ==> s.shared.ongoing[r] == b.ongoing[r])
            && (t.Delivered? || t.Noticed? ==> s.task.Done? && s.shared.ongoing == b.ongoing - {t.r})
            && (!t.Asked? && !t.Delivered? && !t.Noticed? ==> s.shared.ongoing == b.ongoing)
            && FiledUnderOwnId(s.shared.ongoing)
  {
    if t.Touched? {
      BeginKeepsIndex(b, t.m, net, st);
    }
  }

  /** Who else is past its check, when only task `i` changed. */
  lemma Elsewhere(p: Pool, p': Pool, i: nat, j: nat, r: RequestId)
    requires i < |p.tasks| == |p'.tasks| && j < |p.tasks|
    requires WellFormed(p.tasks[i]) && WellFormed(p'.tasks[i]) && WellFormed(p'.tasks[j])
    requires forall k :: 0 <= k < |p.tasks| && k != i ==> p'.tasks[k] == p.tasks[k]
    ensures AskedElsewhere(p', j, r) ==> AskedElsewhere(p, j, r) || (i != j && Asking(p'.tasks[i]) == Some(r))
    ensures ClosedElsewhere(p', j, r) ==> ClosedElsewhere(p, j, r) || (i != j && Closing(p'.tasks[i]) == Some(r))
    ensures i != j && Asking(p.tasks[i]) == Some(r) ==> AskedElsewhere(p, j, r)
    ensures i != j && Closing(p.tasks[i]) == Some(r) ==> ClosedElsewhere(p, j, r)
    ensures i != j && Asking(p'.tasks[j]) == Some(r) && WellFormed(p.tasks[j]) ==> AskedElsewhere(p, i, r)
    ensures i != j && Closing(p'.tasks[j]) == Some(r) && WellFormed(p.tasks[j]) ==> ClosedElsewhere(p, i, r)
  {
    if AskedElsewhere(p', j, r) {
      var k :| 0 <= k < |p'.tasks| && k != j && WellFormed(p'.tasks[k]) && Asking(p'.tasks[k]) == Some(r);
    }
    if ClosedElsewhere(p', j, r) {
      var k :| 0 <= k < |p'.tasks| && k != j && WellFormed(p'.tasks[k]) && Closing(p'.tasks[k]) == Some(r);
    }
  }

  /** The task that runs stays orderly, and so do the others. */
  lemma RunStaysOrderly(p: Pool, move: Move, j: nat)
    requires Orderly(p) && !Races(p, move) && j < |p.tasks|
    requires move.Run? && move.i < |p.tasks|
    ensures OrderlyTask(MakeMove(p, move).pool, j)
  {
    var p', i, t := MakeMove(p, move).pool, move.i, p.tasks[move.i];
    assert OrderlyTask(p, i) && OrderlyTask(p, j);
    SectionOnRequests(p.shared, t, move.now, move.net, move.st);
    var u := p'.tasks[j];
    if Asking(u).Some? {
      Elsewhere(p, p', i, j, Asking(u).value);
    }
    if Closing(u).Some? {
      Elsewhere(p, p', i, j, Closing(u).value);
    }
  }

  lemma AddedTaskKeepsOrder(p: Pool, t: Task)
    requires Orderly(p) && WellFormed(t) && Asking(t).None?
    requires t.Arrived? || (t.Expiring? && t.request.requestId in p.shared.ongoing
             && t.request == p.shared.ongoing[t.request.requestId])
    requires t.Expiring? ==> !ClosedElsewhere(p, -1, t.request.requestId)
    ensures Orderly(p.(tasks := p.tasks + [t]))
  {
    var p' := p.(tasks := p.tasks + [t]);
    forall j | 0 <= j < |p'.tasks| ensures OrderlyTask(p', j) {
      if j < |p.tasks| {
        assert OrderlyTask(p, j);
      }
    }
  }

  lemma RaceBreaksOrder(p: Pool, move: Move)
    requires Orderly(p) && Races(p, move)
    ensures !Orderly(MakeMove(p, move).pool)
  {
    var p' := MakeMove(p, move).pool;
    match move
    case Run(i, now, net, st) =>
      var t := p.tasks[i];
      assert OrderlyTask(p, i);
      var k :| 0 <= k < |p.tasks| && k != i && WellFormed(p.tasks[k])
               && (if t.Looked? then Asking(p.tasks[k]) else Closing(p.tasks[k])) == Some(t.m.requestId);
      assert p'.tasks[k] == p.tasks[k];
      assert !OrderlyTask(p', i);
    case SpawnExpiry(r) =>
      var k :| 0 <= k < |p.tasks| && WellFormed(p.tasks[k]) && Closing(p.tasks[k]) == Some(r);
      assert p'.tasks[k] == p.tasks[k];
      assert !OrderlyTask(p', |p.tasks|);
  }

  lemma MoveKeepsOrderExactly(p: Pool, move: Move)
    requires Orderly(p)
    ensures Orderly(MakeMove(p, move).pool) <==> !Races(p, move)
  {
    var p' := MakeMove(p, move).pool;
    if Races(p, move) {
      RaceBreaksOrder(p, move);
    } else {
      match move
      case Run(i, now, net, st) =>
        if i < |p.tasks| {
          assert OrderlyTask(p, i);
          SectionOnRequests(p.shared, p.tasks[i], now, net, st);
          forall j | 0 <= j < |p'.tasks| ensures OrderlyTask(p', j) {
            RunStaysOrderly(p, move, j);
          }
        }
      case Spawn(m) => AddedTaskKeepsOrder(p, Arrived(m));
      case SpawnExpiry(r) =>
        if r in p.shared.ongoing {
          AddedTaskKeepsOrder(p, Expiring(p.shared.ongoing[r]));
        }
      case RunJob(job, order, net) =>
        forall j | 0 <= j < |p'.tasks| ensures OrderlyTask(p', j) {
          assert OrderlyTask(p, j);
        }
    }
  }

  // ---------- whole plays ----------

  ghost predicate AlwaysHolds(k: Concern, p: Pool, moves: seq<Move>)
    decreases |moves|
  {
    Holds(k, Play(p, moves).pool) && (moves == [] || AlwaysHolds(k, p, moves[..|moves| - 1]))
  }

  ghost predicate NeverBreaks(k: Concern, p: Pool, moves: seq<Move>)
    decreases |moves|
  {
    moves == [] ||
    (NeverBreaks(k, p, moves[..|moves| - 1]) && !Breaks(k, Play(p, moves[..|moves| - 1]).pool, moves[|moves| - 1]))
  }

  /** Under every interleaving: each of the four concerns holds throughout exactly when no move breaks it. */
  lemma {:induction false} KeptExactly(k: Concern, p: Pool, moves: seq<Move>)
    requires SectionInvariant(p) && Holds(k, p)
    ensures AlwaysHolds(k, p, moves) <==> NeverBreaks(k, p, moves)
    decreases |moves|
  {
    if moves != [] {
      var front, last := moves[..|moves| - 1], moves[|moves| - 1];
      KeptExactly(k, p, front);
      EveryInterleaving(p, front);
      if AlwaysHolds(k, p, front) {
        HoldsAtEnd(k, p, front);
        var now := Play(p, front).pool;
        match k
        case OneAtATime => MoveKeepsOrderExactly(now, last);
        case NoStrays => MoveKeepsHandlersExactly(now, last);
        case NoDesertion => MoveKeepsRespondersExactly(now, last);
        case OneEntry => MoveKeepsEntriesExactly(now, last);
      }
    }
  }

  lemma HoldsAtEnd(k: Concern, p: Pool, moves: seq<Move>)
    requires AlwaysHolds(k, p, moves)
    ensures Holds(k, Play(p, moves).pool)
  {
  }

  /** A fresh broker without tasks meets every concern. */
  lemma FreshPoolHolds(k: Concern)
    ensures SectionInvariant(Pool(EMPTY, [])) && Holds(k, Pool(EMPTY, []))
  {
  }

  // ---------- what an orderly play says about requests ----------

  /** The open requests as an observer of the sends knows them: an answered one is closed although it is not dropped
      yet. */
  ghost function Tracked(p: Pool): OngoingRequests {
    map r | r in p.shared.ongoing && Delivered(r) !in p.tasks :: p.shared.ongoing[r]
  }

  /** Which answered requests wait to be dropped, when task `i` becomes `t`. */
  lemma DeliveredAfter(p: Pool, i: nat, t: Task, r: RequestId)
    requires Orderly(p) && i < |p.tasks| && WellFormed(p.tasks[i])
    ensures Delivered(r) in p.tasks[i := t] <==>
              t == Delivered(r) || (Delivered(r) in p.tasks && p.tasks[i] != Delivered(r))
    ensures Closing(p.tasks[i]) == Some(r) && !p.tasks[i].Delivered? ==> Delivered(r) !in p.tasks
    ensures Asking(p.tasks[i]) == Some(r) ==> Delivered(r) !in p.tasks
  {
    var tasks' := p.tasks[i := t];
    assert OrderlyTask(p, i);
    if Delivered(r) in p.tasks {
      var k :| 0 <= k < |p.tasks| && p.tasks[k] == Delivered(r);
      assert OrderlyTask(p, k);
      assert k != i ==> tasks'[k] == Delivered(r) && ClosedElsewhere(p, i, r);
    }
    if Delivered(r) in tasks' {
      var k :| 0 <= k < |tasks'| && tasks'[k] == Delivered(r);
      assert k != i ==> p.tasks[k] == Delivered(r) && ClosedElsewhere(p, i, r);
    }
    assert tasks'[i] == t;
  }

  /** A section's events, by what they do to the open requests. */
  lemma SectionEvents(b: Broker, t: Task, now: int, net: Net, st: Storage)
    requires WellFormed(t)
    ensures var s := Section(b, t, now, net, st);
            && (!t.Chose? && !t.Asked? && !t.Found? && !t.Expiring? && !t.Noticed? ==> Unrelated(s.out))
            && (t.Asked? ==>
                  var o := s.shared.ongoing[t.m.requestId];
                  && s.out == [Dispatched(o)] && o.requestId == t.m.requestId
                  && s.shared.ongoing == b.ongoing[t.m.requestId := o])
            && (t.Noticed? && t.r in b.ongoing ==> s.out == [TimedOut(t.r, b.ongoing[t.r].queryId)])
            && (t.Delivered? ==> s.out == [])
            && (t.Delivered? || t.Noticed? ==> s.task == Done)
            && (s.task.Delivered? ==> t.Found?)
  {
    if t.Touched? && t.m.RegisterSourceEvent? {
      assert Unrelated(Section(b, t, now, net, st).out);
    }
  }

  /** What a task that found its request open sends, and what that does to the open requests. */
  lemma AnswerIsTracked(b: Broker, t: Task, now: int, net: Net, st: Storage, open: OngoingRequests)
    requires WellFormed(t) && (t.Found? || t.Expiring?)
    requires Closing(t).value in open && open[Closing(t).value] == t.request && t.request.requestId == Closing(t).value
    ensures var s := Section(b, t, now, net, st);
            && s.shared == b && AllAllowed(open, s.out)
            && (s.task.Delivered? ==> s.task == Delivered(Closing(t).value))
            && TrackAll(open, s.out) == if s.task.Delivered? then open - {Closing(t).value} else open
  {
    var s, r := Section(b, t, now, net, st), Closing(t).value;
    if s.out != [] {
      TrackOne(open, s.out[0]);
      assert s.out == [s.out[0]];
    }
  }

  /** What a request that found its id unused sends. */
  lemma AskIsTracked(b: Broker, t: Task, now: int, net: Net, st: Storage, open: OngoingRequests)
    requires WellFormed(t) && t.Chose? && t.m.requestId !in open
    ensures var s := Section(b, t, now, net, st);
            AllAllowed(open, s.out) && TrackAll(open, s.out) == open && s.shared == b
  {
    var s := Section(b, t, now, net, st);
    if |s.out| == 1 {
      TrackOne(open, s.out[0]);
      assert s.out == [s.out[0]];
    } else if |s.out| == 2 {
      TrackOne(open, s.out[0]);
      TrackOne(open, s.out[1]);
      TrackAppend(open, [s.out[0]], [s.out[1]]);
      assert s.out == [s.out[0]] + [s.out[1]];
    }
  }

  /** The open requests after task `i` became `t` and the table `ongoing`. */
  lemma TrackedAfter(p: Pool, p': Pool, i: nat, t: Task)
    requires Orderly(p) && i < |p.tasks| && WellFormed(p.tasks[i]) && p'.tasks == p.tasks[i := t]
    ensures Tracked(p') == map r | r in p'.shared.ongoing && t != Delivered(r)
            && (Delivered(r) !in p.tasks || p.tasks[i] == Delivered(r))
                             :: p'.shared.ongoing[r]
    ensures Closing(p.tasks[i]).Some? && !p.tasks[i].Delivered? ==> Delivered(Closing(p.tasks[i]).value) !in p.tasks
    ensures Asking(p.tasks[i]).Some? ==> Delivered(Asking(p.tasks[i]).value) !in p.tasks
  {
    forall r
      ensures Delivered(r) in p'.tasks <==> t == Delivered(r) || (Delivered(r) in p.tasks && p.tasks[i] != Delivered(r))
    {
      DeliveredAfter(p, i, t, r);
    }
    if Closing(p.tasks[i]).Some? {
      DeliveredAfter(p, i, t, Closing(p.tasks[i]).value);
    }
    if Asking(p.tasks[i]).Some? {
      DeliveredAfter(p, i, t, Asking(p.tasks[i]).value);
    }
  }

  /** The move's events are allowed, and account for the open requests after it. */
  ghost predicate IsTracked(p: Pool, move: Move) {
    AllAllowed(Tracked(p), MakeMove(p, move).out)
        && TrackAll(Tracked(p), MakeMove(p, move).out) == Tracked(MakeMove(p, move).pool)
  }

  lemma AnswerRunIsTracked(p: Pool, move: Move)
    requires Orderly(p) && move.Run? && move.i < |p.tasks| && (p.tasks[move.i].Found? || p.tasks[move.i].Expiring?)
    ensures IsTracked(p, move)
  {
    var i, t := move.i, p.tasks[move.i];
    assert OrderlyTask(p, i);
    var s := Section(p.shared, t, move.now, move.net, move.st);
    TrackedAfter(p, MakeMove(p, move).pool, i, s.task);
    AnswerIsTracked(p.shared, t, move.now, move.net, move.st, Tracked(p));
  }

  lemma AskedRunIsTracked(p: Pool, move: Move)
    requires Orderly(p) && move.Run? && move.i < |p.tasks| && p.tasks[move.i].Asked?
    ensures IsTracked(p, move)
  {
    var i, t := move.i, p.tasks[move.i];
    assert OrderlyTask(p, i);
    var s := Section(p.shared, t, move.now, move.net, move.st);
    TrackedAfter(p, MakeMove(p, move).pool, i, s.task);
    SectionEvents(p.shared, t, move.now, move.net, move.st);
    TrackOne(Tracked(p), s.out[0]);
  }

  lemma DropRunIsTracked(p: Pool, move: Move)
    requires Orderly(p) && move.Run? && move.i < |p.tasks| && p.tasks[move.i].Noticed?
    ensures IsTracked(p, move)
  {
    var i, r := move.i, p.tasks[move.i].r;
    assert OrderlyTask(p, i);
    TrackedAfter(p, MakeMove(p, move).pool, i, Done);
    TrackOne(Tracked(p), TimedOut(r, p.shared.ongoing[r].queryId));
  }

  lemma ClosedRunIsTracked(p: Pool, move: Move)
    requires Orderly(p) && move.Run? && move.i < |p.tasks| && p.tasks[move.i].Delivered?
    ensures IsTracked(p, move)
  {
    TrackedAfter(p, MakeMove(p, move).pool, move.i, Done);
  }

  lemma OtherRunIsTracked(p: Pool, move: Move)
    requires Orderly(p) && move.Run? && move.i < |p.tasks|
    requires var t := p.tasks[move.i]; !t.Asked? && !t.Noticed? && !t.Delivered? && !t.Found? && !t.Expiring?
    ensures IsTracked(p, move)
  {
    var i, t := move.i, p.tasks[move.i];
    assert OrderlyTask(p, i);
    var s := Section(p.shared, t, move.now, move.net, move.st);
    TrackedAfter(p, MakeMove(p, move).pool, i, s.task);
    SectionOnRequests(p.shared, t, move.now, move.net, move.st);
    SectionEvents(p.shared, t, move.now, move.net, move.st);
    if t.Chose? {
      AskIsTracked(p.shared, t, move.now, move.net, move.st, Tracked(p));
    } else {
      TrackUnrelated(Tracked(p), s.out);
    }
  }

  lemma RunIsTracked(p: Pool, move: Move)
    requires Orderly(p) && move.Run? && move.i < |p.tasks|
    ensures IsTracked(p, move)
  {
    var t := p.tasks[move.i];
    if t.Found? || t.Expiring? {
      AnswerRunIsTracked(p, move);
    } else if t.Asked? {
      AskedRunIsTracked(p, move);
    } else if t.Noticed? {
      DropRunIsTracked(p, move);
    } else if t.Delivered? {
      ClosedRunIsTracked(p, move);
    } else {
      OtherRunIsTracked(p, move);
    }
  }

  lemma MoveIsTracked(p: Pool, move: Move)
    requires Orderly(p)
    ensures IsTracked(p, move)
  {
    var p' := MakeMove(p, move).pool;
    match move
    case Run(i, _, _, _) =>
      if i < |p.tasks| {
        assert OrderlyTask(p, i);
        RunIsTracked(p, move);
      }
    case RunJob(job, order, net) =>
      if job < |p.shared.jobs| {
        BroadcastSays(p.shared, order, SourceEventBroadcast(p.shared.jobs[job]), net);
        TrackUnrelated(Tracked(p), MakeMove(p, move).out);
      }
    case _ => assert forall r :: Delivered(r) in p'.tasks <==> Delivered(r) in p.tasks;
  }

  /** In every interleaving in which no two requests and no two answers with one id race, an open id is never
      dispatched again, answers and timeouts only come for an open request, one each, and go to its requester. */
  lemma {:induction false} OrderlyPlaysAreAllowed(p: Pool, moves: seq<Move>)
    requires SectionInvariant(p) && Orderly(p) && NeverBreaks(OneAtATime, p, moves)
    ensures AllAllowed(Tracked(p), Play(p, moves).out)
    ensures TrackAll(Tracked(p), Play(p, moves).out) == Tracked(Play(p, moves).pool)
    decreases |moves|
  {
    if moves != [] {
      var front, last := moves[..|moves| - 1], moves[|moves| - 1];
      OrderlyPlaysAreAllowed(p, front);
      KeptExactly(OneAtATime, p, front);
      HoldsAtEnd(OneAtATime, p, front);
      var before := Play(p, front);
      MoveIsTracked(before.pool, last);
      TrackAppend(Tracked(p), before.out, MakeMove(before.pool, last).out);
    }
  }

  /** So conservation holds in such interleavings: per id, what was dispatched is answered once, timed out once, or
      still open. */
  lemma OrderlyPlaysConserve(b: Broker, moves: seq<Move>, r: RequestId)
    requires SectionInvariant(Pool(b, [])) && b.ongoing == map[] && NeverBreaks(OneAtATime, Pool(b, []), moves)
    ensures var e := Play(Pool(b, []), moves);
            Tally(Dispatches, r, e.out)
            == Tally(Responses, r, e.out) + Tally(HandlingErrors, r, e.out) + Tally(Timeouts, r, e.out)
                + Bit(r in Tracked(e.pool))
  {
    OrderlyPlaysAreAllowed(Pool(b, []), moves);
    assert Tracked(Pool(b, [])) == map[];
    AllowedBalances(map[], Play(Pool(b, []), moves).out, r);
  }

  // ---------- what callers can do to rule races out ----------

  datatype Errand = OtherErrand | RequestErrand(r: RequestId) | AnswerErrand(r: RequestId)

  function MessageErrand(m: ClientMessage): Errand {
    match m
    case QueryRequest(r, _, _, _) => RequestErrand(r)
    case QueryResponse(r, _, _) => AnswerErrand(r)
    case QueryHandlingFailed(r, _, _) => AnswerErrand(r)
    case _ => OtherErrand
  }

  /** What a task under way is about. */
  function ErrandOf(t: Task): Errand {
    match t
    case Arrived(m) => MessageErrand(m)
    case Touched(m) => MessageErrand(m)
    case Looked(m, _) => MessageErrand(m)
    case Unique(m, _) => MessageErrand(m)
    case Chose(m, _, _) => MessageErrand(m)
    case Asked(m, _) => MessageErrand(m)
    case Found(m, _) => MessageErrand(m)
    case Delivered(r) => AnswerErrand(r)
    case Expiring(o) => AnswerErrand(o.requestId)
    case Noticed(r) => AnswerErrand(r)
    case _ => OtherErrand
  }

  ghost predicate Busy(p: Pool, errand: Errand) {
    exists j :: 0 <= j < |p.tasks| && ErrandOf(p.tasks[j]) == errand
  }

  /** A request is taken while another with its id is under way, or an answer or expiry while another for its request
      is. */
  ghost predicate Overlaps(p: Pool, move: Move) {
    match move
    case Spawn(m) => MessageErrand(m) != OtherErrand && Busy(p, MessageErrand(m))
    case SpawnExpiry(r) => Busy(p, AnswerErrand(r))
    case _ => false
  }

  ghost predicate NeverOverlaps(p: Pool, moves: seq<Move>)
    decreases |moves|
  {
    moves == [] || (NeverOverlaps(p, moves[..|moves| - 1])
        && !Overlaps(Play(p, moves[..|moves| - 1]).pool, moves[|moves| - 1]))
  }

  ghost predicate OneTaskPerErrand(p: Pool) {
    forall i, j :: 0 <= i < j < |p.tasks| && ErrandOf(p.tasks[i]) != OtherErrand
        ==> ErrandOf(p.tasks[i]) != ErrandOf(p.tasks[j])
  }

  lemma SectionKeepsErrand(b: Broker, t: Task, now: int, net: Net, st: Storage)
    requires WellFormed(t) && FiledUnderOwnId(b.ongoing)
    ensures ErrandOf(Section(b, t, now, net, st).task) == ErrandOf(t)
            || ErrandOf(Section(b, t, now, net, st).task) == OtherErrand
  {
  }

  lemma MoveKeepsErrands(p: Pool, move: Move)
    requires SectionInvariant(p) && OneTaskPerErrand(p) && !Overlaps(p, move)
    ensures OneTaskPerErrand(MakeMove(p, move).pool)
  {
    if move.Run? && move.i < |p.tasks| {
      SectionKeepsErrand(p.shared, p.tasks[move.i], move.now, move.net, move.st);
    }
  }

  lemma OneTaskNoRace(p: Pool, move: Move)
    requires SectionInvariant(p) && OneTaskPerErrand(p) && !Overlaps(p, move)
    ensures !Races(p, move)
  {
    if Races(p, move) {
      if move.Run? {
        var t := p.tasks[move.i];
        var j :| 0 <= j < |p.tasks| && j != move.i && WellFormed(p.tasks[j])
                 && (if t.Looked? then Asking(p.tasks[j]) else Closing(p.tasks[j])) == Some(t.m.requestId);
        TaskErrand(p.tasks[j]);
      } else {
        var j :| 0 <= j < |p.tasks| && WellFormed(p.tasks[j]) && Closing(p.tasks[j]) == Some(move.r);
        TaskErrand(p.tasks[j]);
      }
    }
  }

  lemma TaskErrand(t: Task)
    requires WellFormed(t)
    ensures Asking(t).Some? ==> ErrandOf(t) == RequestErrand(Asking(t).value)
    ensures Closing(t).Some? ==> ErrandOf(t) == AnswerErrand(Closing(t).value)
  {
  }

  /** Callers that let no two requests with one id, and no two answers to one request, overlap rule every race out. */
  lemma {:induction false} NoOverlapNoRace(p: Pool, moves: seq<Move>)
    requires SectionInvariant(p) && OneTaskPerErrand(p) && NeverOverlaps(p, moves)
    ensures NeverBreaks(OneAtATime, p, moves) && OneTaskPerErrand(Play(p, moves).pool)
    decreases |moves|
  {
    if moves != [] {
      var front, last := moves[..|moves| - 1], moves[|moves| - 1];
      NoOverlapNoRace(p, front);
      EveryInterleaving(p, front);
      MoveKeepsErrands(Play(p, front).pool, last);
      OneTaskNoRace(Play(p, front).pool, last);
    }
  }

  // ---------- every answer, raced or not, goes to a requester ----------

  /** The request was dispatched before. */
  ghost predicate Recorded(out: seq<Event>, o: Ongoing) {
    Dispatched(o) in out
  }

  /** Event `i`, if it is an answer, goes to the client of an earlier dispatch with its id, about its query. */
  ghost predicate AnswersRecorded(out: seq<Event>, i: nat)
    requires i < |out|
  {
    out[i].Sent? && Answers(out[i].msg) ==>
      exists o :: Recorded(out[..i], o) && o.requestId == out[i].msg.requestId && o.requester == out[i].to
                  && (out[i].msg.QueryRequestedFailed? ==> o.queryId == out[i].msg.queryId)
  }

  ghost predicate AllRecorded(p: Pool, out: seq<Event>) {
    && (forall r :: r in p.shared.ongoing ==> p.shared.ongoing[r].requestId == r && Recorded(out, p.shared.ongoing[r]))
    && (forall i :: 0 <= i < |p.tasks| && p.tasks[i].Found? ==>
          Recorded(out, p.tasks[i].request) && WellFormed(p.tasks[i])
              && p.tasks[i].request.requestId == p.tasks[i].m.requestId)
    && (forall i :: 0 <= i < |p.tasks| && p.tasks[i].Expiring? ==> Recorded(out, p.tasks[i].request))
    && (forall i :: 0 <= i < |out| ==> AnswersRecorded(out, i))
  }

  /** At most one event of a section is an answer, and then it is the only one, of a request the task found. */
  lemma SectionAnswers(b: Broker, t: Task, now: int, net: Net, st: Storage)
    requires WellFormed(t)
    ensures var s := Section(b, t, now, net, st);
            forall i :: 0 <= i < |s.out| && s.out[i].Sent? && Answers(s.out[i].msg) ==>
              && i == 0 && (t.Found? || t.Expiring?) && s.out[0].to == t.request.requester
              && s.out[0].msg.requestId == (if t.Found? then t.m.requestId else t.request.requestId)
              && (s.out[0].msg.QueryRequestedFailed? ==> s.out[0].msg.queryId == t.request.queryId)
  {
    if !t.Found? && !t.Expiring? {
      SectionEvents(b, t, now, net, st);
    }
  }

  lemma OldAnswersStay(out: seq<Event>, more: seq<Event>)
    requires forall i :: 0 <= i < |out| ==> AnswersRecorded(out, i)
    ensures forall i :: 0 <= i < |out| ==> AnswersRecorded(out + more, i)
  {
    forall i | 0 <= i < |out| ensures AnswersRecorded(out + more, i) {
      assert AnswersRecorded(out, i);
      assert (out + more)[..i] == out[..i];
    }
  }

  lemma NewAnswersRecorded(p: Pool, out: seq<Event>, move: Move)
    requires SectionInvariant(p) && AllRecorded(p, out) && move.Run? && move.i < |p.tasks|
    ensures var out' := out + MakeMove(p, move).out; forall k :: |out| <= k < |out'| ==> AnswersRecorded(out', k)
  {
    var t, more := p.tasks[move.i], MakeMove(p, move).out;
    var out' := out + more;
    SectionAnswers(p.shared, t, move.now, move.net, move.st);
    forall k | |out| <= k < |out'| ensures AnswersRecorded(out', k) {
      if out'[k].Sent? && Answers(out'[k].msg) {
        assert out'[k] == more[k - |out|];
        assert out'[..k] == out;
        assert Recorded(out, t.request);
      }
    }
  }

  lemma MoveKeepsRecorded(p: Pool, out: seq<Event>, move: Move)
    requires SectionInvariant(p) && AllRecorded(p, out)
    ensures AllRecorded(MakeMove(p, move).pool, out + MakeMove(p, move).out)
  {
    var p', more := MakeMove(p, move).pool, MakeMove(p, move).out;
    OldAnswersStay(out, more);
    match move
    case Run(i, now, net, st) =>
      if i < |p.tasks| {
        var t := p.tasks[i];
        SectionOnRequests(p.shared, t, now, net, st);
        SectionEvents(p.shared, t, now, net, st);
        NewAnswersRecorded(p, out, move);
      }
    case RunJob(job, order, net) =>
      if job < |p.shared.jobs| {
        BroadcastSays(p.shared, order, SourceEventBroadcast(p.shared.jobs[job]), net);
      }
    case _ =>
  }

  /** Under every interleaving, racing or not, an answer goes to the client of an earlier dispatch with its id. */
  lemma {:induction false} AnswersFollowDispatches(b: Broker, moves: seq<Move>)
    requires SectionInvariant(Pool(b, [])) && b.ongoing == map[]
    ensures AllRecorded(Play(Pool(b, []), moves).pool, Play(Pool(b, []), moves).out)
    decreases |moves|
  {
    if moves != [] {
      var front, last := moves[..|moves| - 1], moves[|moves| - 1];
      AnswersFollowDispatches(b, front);
      EveryInterleaving(Pool(b, []), front);
      MoveKeepsRecorded(Play(Pool(b, []), front).pool, Play(Pool(b, []), front).out, last);
    }
  }
}

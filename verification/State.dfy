/** The broker as the mutable object of src/domain/state.rs, proved to do what `StateMachine` says. */
module State {
  import opened Ids
  import opened Messages
  import opened QueryHandlers
  import opened EventStore
  import opened StateMachine

  class State {
    var connectedClients: map<ClientId, ClientInfo>
    var jobs: seq<SourceEvent>
    const queryHandlers: QueryHandler
    const repository: EventRepository
    ghost var trace: seq<Event>

    ghost function Model(): Broker
      reads this`connectedClients, this`jobs, queryHandlers, queryHandlers.strategy, repository
    {
      Broker(connectedClients, queryHandlers.queryHandlers, queryHandlers.strategy.lastSelected,
             queryHandlers.ongoing, repository.rows, jobs)
    }

    /** The object changed as `o` says. */
    twostate predicate Became(o: Outcome)
      reads this, queryHandlers, queryHandlers.strategy, repository
    {
      && Model() == o.state
      && trace == old(trace) + o.out
    }

    constructor ()
      ensures Model() == EMPTY && trace == []
      ensures fresh(queryHandlers) && fresh(queryHandlers.strategy) && fresh(repository)
    {
      connectedClients, jobs, trace := map[], [], [];
      queryHandlers := new QueryHandler();
      repository := new EventRepository();
    }

    method Send(to: ClientId, tx: Tx, msg: ServerMessage, net: Net) returns (ok: bool)
      modifies this`trace
      ensures ok == net(to, tx, msg)
      ensures trace == old(trace) + [Sent(to, tx, msg, ok)]
    {
      ok := net(to, tx, msg);
      trace := trace + [Sent(to, tx, msg, ok)];
    }

    method SendIfConnected(c: ClientId, msg: ServerMessage, net: Net) returns (ok: bool)
      modifies this`trace
      ensures ok == Reaches(Model(), c, msg, net)
      ensures trace == old(trace) + Notify(Model(), c, msg, net)
    {
      ok := false;
      if c in connectedClients {
        ok := Send(c, connectedClients[c].tx, msg, net);
      }
    }

    method HandleMessage(m: ClientMessage, now: int, net: Net, st: Storage)
      modifies this, queryHandlers, queryHandlers.strategy, repository
      ensures Became(StateMachine.HandleMessage(old(Model()), m, now, net, st))
      ensures old(queryHandlers.Valid()) ==> queryHandlers.Valid()
    {
      var source := m.Source();
      if source.Some? && source.value in connectedClients {
        connectedClients := connectedClients[source.value := connectedClients[source.value].(lastSeen := now)];
      }
      match m {
        case RegisterClient(_, _, _) => HandleRegisterClient(m, now, net);
        case QueryRequest(_, _, _, _) => HandleQueryRequest(m, now, net);
        case QueryResponse(_, _, _) => HandleQueryResponse(m, net);
        case QueryHandlingFailed(_, _, _) => HandleQueryHandlingError(m, net);
        case RegisterSourceEvent(_, _, _, _, _) => HandleRegisterSourceEvent(m, net, st);
        case Heartbeat(_) =>
        case DisconnectClient(c) => HandleDisconnectedClient(c);
      }
    }

    method HandleRegisterClient(m: ClientMessage, now: int, net: Net)
      requires m.RegisterClient?
      modifies this, queryHandlers
      ensures Became(Register(old(Model()), m, now, net))
      ensures old(queryHandlers.Valid()) ==> queryHandlers.Valid()
    {
      if m.client in connectedClients {
        var _ := Send(m.client, m.tx, ClientRegistrationFailed(m.client), net);
        return;
      }
      var ok := Send(m.client, m.tx, ClientRegistered(m.client), net);
      if !ok {
        return;
      }
      connectedClients := connectedClients[m.client := ClientInfo(m.tx, now)];
      queryHandlers.AddClientQueryHandler(m.client, m.queries);
      trace := trace + [Registered(m.client, m.queries, m.tx)];
    }

    method HandleQueryRequest(m: ClientMessage, now: int, net: Net)
      requires m.QueryRequest?
      modifies this, queryHandlers, queryHandlers.strategy
      ensures Became(Request(old(Model()), m, now, net))
      ensures old(queryHandlers.Valid()) ==> queryHandlers.Valid()
    {
      var current := queryHandlers.GetOngoingRequest(m.requestId);
      if current.Some? {
        if !current.value.IsSame(m) {
          var _ := SendIfConnected(m.requester, Duplicated(m), net);
        }
        return;
      }
      var selection := queryHandlers.GetClientIdForQueryId(m.queryId);
      match selection {
        case Selected(responder) =>
          if responder in connectedClients {
            AskResponder(m, responder, now, net);
          }
        case HandlerNotFound =>
          var _ := SendIfConnected(m.requester, NotFound(m), net);
        case ResponderNotFound =>
      }
    }

    /** Sends the request to its responder and records it; failing that, tells the requester. */
    method AskResponder(m: ClientMessage, responder: ClientId, now: int, net: Net)
      requires m.QueryRequest?
      modifies this`trace, queryHandlers
      ensures var b, request := old(Model()), Ongoing(m.requestId, m.queryId, m.parameters, m.requester, responder,
              now);
              if Reaches(b, responder, Ask(m), net)
              then Became(Outcome(b.(ongoing := b.ongoing[m.requestId := request]),
                                  Notify(b, responder, Ask(m), net) + [Dispatched(request)]))
              else Became(Outcome(b, Notify(b, responder, Ask(m), net) + Notify(b, m.requester, NotFound(m), net)))
      ensures old(queryHandlers.Valid()) ==> queryHandlers.Valid()
    {
      var asked := SendIfConnected(responder, Ask(m), net);
      if !asked {
        var _ := SendIfConnected(m.requester, NotFound(m), net);
        return;
      }
      var request := Ongoing(m.requestId, m.queryId, m.parameters, m.requester, responder, now);
      queryHandlers.HandleQueryRequestedEvent(request);
      trace := trace + [Dispatched(request)];
    }

    method HandleQueryResponse(m: ClientMessage, net: Net)
      requires m.QueryResponse?
      modifies this, queryHandlers
      ensures Became(Respond(old(Model()), m, net))
      ensures old(queryHandlers.Valid()) ==> queryHandlers.Valid()
    {
      var request := queryHandlers.GetOngoingRequest(m.requestId);
      if request.None? {
        return;
      }
      var delivered := SendIfConnected(request.value.requester, QueryResponded(m.requestId, m.result), net);
      if delivered {
        var _ := queryHandlers.RemoveOngoingRequest(m.requestId);
      }
    }

    method HandleQueryHandlingError(m: ClientMessage, net: Net)
      requires m.QueryHandlingFailed?
      modifies this, queryHandlers
      ensures Became(FailHandling(old(Model()), m, net))
      ensures old(queryHandlers.Valid()) ==> queryHandlers.Valid()
    {
      var request := queryHandlers.GetOngoingRequest(m.requestId);
      if request.None? {
        return;
      }
      var msg := QueryRequestedFailed(m.requestId, request.value.queryId, HandlingError(m.reason));
      var delivered := SendIfConnected(request.value.requester, msg, net);
      if delivered {
        var _ := queryHandlers.RemoveOngoingRequest(m.requestId);
      }
    }

    method HandleRegisterSourceEvent(m: ClientMessage, net: Net, st: Storage)
      requires m.RegisterSourceEvent?
      modifies this, repository
      ensures Became(Publish(old(Model()), m, net, st))
    {
      var result := repository.SaveSourceEvent(NewEvent(m.aggregateId, m.aggregateType, m.payload), st);
      if result.SaveFailed? || m.source !in connectedClients {
        return;
      }
      var _ := SendIfConnected(m.source, SourceEventRegistered(result.event.id, result.event.clock), net);
      jobs := jobs + [result.event];
    }

    method HandleDisconnectedClient(c: ClientId)
      modifies this, queryHandlers
      ensures Became(Disconnect(old(Model()), c))
      ensures old(queryHandlers.Valid()) ==> queryHandlers.Valid()
    {
      connectedClients := connectedClients - {c};
      queryHandlers.DisconnectClient(c);
      trace := trace + [Disconnected(c)];
    }

    method HandleQueryTimedOut(r: RequestId)
      modifies this`trace, queryHandlers`ongoing
      ensures queryHandlers.ongoing == old(queryHandlers.ongoing) - {r}
      ensures queryHandlers.queryHandlers == old(queryHandlers.queryHandlers)
      ensures trace == old(trace) + if r in old(queryHandlers.ongoing)
                                    then [TimedOut(r, old(queryHandlers.ongoing)[r].queryId)] else []
      ensures old(queryHandlers.Valid()) ==> queryHandlers.Valid()
    {
      var removed := queryHandlers.RemoveOngoingRequest(r);
      if removed.Some? {
        trace := trace + [TimedOut(r, removed.value.queryId)];
      }
    }

    method CollectOldClients(now: int, expiration: int) returns (olds: seq<(ClientId, Tx)>)
      ensures Lists(olds, OldClients(Model(), now, expiration))
    {
      var todo := connectedClients.Keys;
      olds := [];
      while todo != {}
        invariant todo <= connectedClients.Keys
        invariant Lists(olds, set c | c in connectedClients && c !in todo
                  && now - connectedClients[c].lastSeen > expiration
                                  :: (c, connectedClients[c].tx))
        decreases todo
      {
        var c :| c in todo;
        ghost var done := set c | c in connectedClients && c !in todo && now - connectedClients[c].lastSeen > expiration
                                :: (c, connectedClients[c].tx);
        todo := todo - {c};
        ghost var done' := set c | c in connectedClients && c !in todo
            && now - connectedClients[c].lastSeen > expiration
                                 :: (c, connectedClients[c].tx);
        if now - connectedClients[c].lastSeen > expiration {
          ListsExtend(olds, done, (c, connectedClients[c].tx), done');
          olds := olds + [(c, connectedClients[c].tx)];
        } else {
          assert done' == done;
        }
      }
      assert OldClients(Model(), now, expiration)
          == set c | c in connectedClients && c !in todo && now - connectedClients[c].lastSeen > expiration
                   :: (c, connectedClients[c].tx);
    }

    method ProbeClient(stale: (ClientId, Tx), now: int, net: Net)
      modifies this, queryHandlers, queryHandlers.strategy, repository
      ensures Became(Probe(old(Model()), stale, now, net))
    {
      var ok := Send(stale.0, stale.1, ServerHeartbeat, net);
      HandleMessage(if ok then Heartbeat(stale.0) else DisconnectClient(stale.0), now, net, NO_STORAGE);
    }

    method ProbeStale(olds: seq<(ClientId, Tx)>, now: int, net: Net)
      modifies this, queryHandlers, queryHandlers.strategy, repository
      ensures Became(ProbeAll(old(Model()), olds, now, net))
    {
      ghost var b0, t0, so := Model(), trace, Outcome(Model(), []);
      var i := 0;
      while i < |olds|
        invariant i <= |olds|
        invariant so == ProbeAll(b0, olds[..i], now, net)
        invariant Model() == so.state && trace == t0 + so.out
      {
        ProbeAllNext(b0, olds, i, now, net);
        ghost var one := Probe(so.state, olds[i], now, net);
        ProbeClient(olds[i], now, net);
        Regroup(t0, so.out, one.out);
        so := Outcome(one.state, so.out + one.out);
        i := i + 1;
      }
      assert olds[..i] == olds;
    }

    method ExpireRequest(o: Ongoing, net: Net)
      modifies this`trace, queryHandlers`ongoing
      ensures Became(Expire(old(Model()), o, net))
    {
      var _ := SendIfConnected(o.requester, QueryRequestedFailed(o.requestId, o.queryId, QueryTimedOut), net);
      HandleQueryTimedOut(o.requestId);
    }

    method ExpireRequests(expired: seq<Ongoing>, net: Net)
      modifies this`trace, queryHandlers`ongoing
      ensures Became(ExpireAll(old(Model()), expired, net))
    {
      ghost var b0, t0, so := Model(), trace, Outcome(Model(), []);
      var i := 0;
      while i < |expired|
        invariant i <= |expired|
        invariant so == ExpireAll(b0, expired[..i], net)
        invariant Model() == so.state && trace == t0 + so.out
      {
        ExpireAllNext(b0, expired, i, net);
        ghost var one := Expire(so.state, expired[i], net);
        ExpireRequest(expired[i], net);
        Regroup(t0, so.out, one.out);
        so := Outcome(one.state, so.out + one.out);
        i := i + 1;
      }
      assert expired[..i] == expired;
    }

    /** The first half of a turn: every client not seen for too long is probed. */
    method ProbeOldClients(now: int, expiration: int, net: Net) returns (olds: seq<(ClientId, Tx)>)
      requires queryHandlers.Valid()
      modifies this, queryHandlers, queryHandlers.strategy, repository
      ensures Lists(olds, OldClients(old(Model()), now, expiration))
      ensures Became(ProbeAll(old(Model()), olds, now, net))
      ensures queryHandlers.Valid() && queryHandlers.ongoing == old(queryHandlers.ongoing)
    {
      ghost var b := Model();
      olds := CollectOldClients(now, expiration);
      ProbeStale(olds, now, net);
      ProbeAllKeepsRequests(b, olds, now, net);
      ProbeAllKeepsNonEmpty(b, olds, now, net);
    }

    /** The second half: every request that is open for too long is dropped. */
    method DropExpired(now: int, timeout: int, net: Net) returns (expired: seq<Ongoing>)
      requires queryHandlers.Valid()
      modifies this`trace, queryHandlers`ongoing
      ensures Lists(expired, ExpiredSet(old(queryHandlers.ongoing), now, timeout))
      ensures Became(ExpireAll(old(Model()), expired, net))
      ensures queryHandlers.Valid()
    {
      ghost var b := Model();
      expired := queryHandlers.GetExpiredRequests(now, timeout);
      ExpireRequests(expired, net);
      ExpireAllOnlyRemoves(b, expired, net);
    }

    /** One turn of the loop in `start`; returns the orders in which it visited the two tables. */
    method Tick(limits: Limits, now: int, net: Net) returns (olds: seq<(ClientId, Tx)>, expired: seq<Ongoing>)
      requires queryHandlers.Valid()
      modifies this, queryHandlers, queryHandlers.strategy, repository
      ensures Lists(olds, OldClients(old(Model()), now, limits.expiration))
      ensures Lists(expired, ExpiredSet(old(Model()).ongoing, now, limits.timeout))
      ensures Became(TickWith(old(Model()), olds, expired, now, net))
      ensures queryHandlers.Valid()
    {
      ghost var b0, t0 := Model(), trace;
      olds := ProbeOldClients(now, limits.expiration, net);
      ghost var b1 := Model();
      expired := DropExpired(now, limits.timeout, net);
      Regroup(t0, ProbeAll(b0, olds, now, net).out, ExpireAll(b1, expired, net).out);
    }

    /** Sends `msg` to every client; returns the order in which it visited them. */
    method SendToAll(msg: ServerMessage, net: Net) returns (order: seq<ClientId>)
      modifies this`trace
      ensures Lists(order, connectedClients.Keys)
      ensures trace == old(trace) + SendAll(Model(), order, msg, net)
    {
      ghost var b, t0, sent := Model(), trace, [];
      var todo := connectedClients.Keys;
      ghost var done: set<ClientId> := {};
      order := [];
      while todo != {}
        invariant todo + done == connectedClients.Keys && todo !! done
        invariant Lists(order, done)
        invariant sent == SendAll(b, order, msg, net)
        invariant Model() == b && trace == t0 + sent
        decreases todo
      {
        var c :| c in todo;
        SendAllNext(b, order, c, msg, net);
        ListsExtend(order, done, c, done + {c});
        Regroup(t0, sent, Notify(b, c, msg, net));
        var _ := SendIfConnected(c, msg, net);
        sent := sent + Notify(b, c, msg, net);
        todo, done, order := todo - {c}, done + {c}, order + [c];
      }
      assert done == connectedClients.Keys;
    }

    /** The task spawned for a saved event. */
    method Broadcast(job: nat, net: Net) returns (order: seq<ClientId>)
      requires job < |jobs|
      modifies this
      ensures Lists(order, old(connectedClients).Keys)
      ensures Became(BroadcastWith(old(Model()), job, order, net))
    {
      order := SendToAll(SourceEventBroadcast(jobs[job]), net);
      jobs := jobs[..job] + jobs[job + 1..];
    }
  }
}

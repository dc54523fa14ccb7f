/** The handler index refines a plain list of registrations
    (src/domain/query_handlers.rs:44-60, src/domain/state.rs:194-224, src/domain/state.rs:480-484). */
module Registry {
  import opened Ids
  import opened Messages
  import opened QueryHandlers
  import opened StateMachine

  /** A connected client, the list of queries it declared and the channel it registered with. */
  datatype Registration = Registration(client: ClientId, queries: seq<QueryId>, tx: Tx)

  /** The connected clients in registration order. */
  type Registry = seq<Registration>

  ghost function Clients(regs: Registry): set<ClientId> {
    set i | 0 <= i < |regs| :: regs[i].client
  }

  ghost predicate DistinctClients(regs: Registry) {
    forall i, j :: 0 <= i < j < |regs| ==> regs[i].client != regs[j].client
  }

  /** Walks the registrations in order and emits each client once per occurrence of `q` in its list. */
  function HandlersOf(regs: Registry, q: QueryId): seq<ClientId> {
    if regs == [] then []
    else
      var last := regs[|regs| - 1];
      HandlersOf(regs[..|regs| - 1], q) + Copies(last.client, Occurrences(last.queries, q))
  }

  function Drop(regs: Registry, c: ClientId): Registry {
    if regs == [] then []
    else
      var last := regs[|regs| - 1];
      Drop(regs[..|regs| - 1], c) + if last.client == c then [] else [last]
  }

  /** Every client is reached on the channel it registered with. */
  ghost predicate OwnChannels(b: Broker, regs: Registry) {
    forall i :: 0 <= i < |regs| ==>
      regs[i].client in b.connected && b.connected[regs[i].client].tx == regs[i].tx
  }

  /** The broker's two client tables say exactly what the registrations say. */
  ghost predicate Reflects(b: Broker, regs: Registry) {
    && DistinctClients(regs)
    && b.connected.Keys == Clients(regs)
    && OwnChannels(b, regs)
    && NoEmptyLists(b.handlers)
    && forall q :: Lookup(b.handlers, q) == HandlersOf(regs, q)
  }

  // ---------- the registrations, read off the trace ----------

  function Record(regs: Registry, e: Event): Registry {
    match e
    case Registered(c, queries, tx) => regs + [Registration(c, queries, tx)]
    case Disconnected(c) => Drop(regs, c)
    case _ => regs
  }

  function Replay(regs: Registry, out: seq<Event>): Registry {
    if out == [] then regs else Record(Replay(regs, out[..|out| - 1]), out[|out| - 1])
  }

  lemma ReplayOne(regs: Registry, e: Event)
    ensures Replay(regs, [e]) == Record(regs, e)
  {
    assert [e][..0] == [];
  }

  lemma ClientsAppend(regs: Registry, reg: Registration)
    ensures Clients(regs + [reg]) == Clients(regs) + {reg.client}
  {
    assert (regs + [reg])[|regs|] == reg;
    forall i | 0 <= i < |regs| ensures regs[i].client in Clients(regs + [reg]) {
      assert (regs + [reg])[i] == regs[i];
    }
  }

  lemma {:induction false} ReplayAppend(regs: Registry, out: seq<Event>, more: seq<Event>)
    ensures Replay(regs, out + more) == Replay(Replay(regs, out), more)
  {
    if more == [] {
      assert out + more == out;
    } else {
      assert (out + more)[..|out + more| - 1] == out + more[..|more| - 1];
      ReplayAppend(regs, out, more[..|more| - 1]);
    }
  }

  ghost predicate NoRegistryEvents(out: seq<Event>) {
    forall i :: 0 <= i < |out| ==> !out[i].Registered? && !out[i].Disconnected?
  }

  lemma {:induction false} ReplayQuiet(regs: Registry, out: seq<Event>)
    requires NoRegistryEvents(out)
    ensures Replay(regs, out) == regs
  {
    if out != [] {
      ReplayQuiet(regs, out[..|out| - 1]);
    }
  }

  // ---------- each operation ----------

  lemma ClientAt(regs: Registry, i: nat)
    requires i < |regs|
    ensures regs[i].client in Clients(regs)
  {
  }

  /** Dropping a client keeps the others, once each. */
  lemma {:induction false} DropClients(regs: Registry, c: ClientId)
    requires DistinctClients(regs)
    ensures DistinctClients(Drop(regs, c)) && Clients(Drop(regs, c)) == Clients(regs) - {c}
  {
    if regs != [] {
      var front, last := regs[..|regs| - 1], regs[|regs| - 1];
      DropClients(front, c);
      assert regs == front + [last];
      ClientsAppend(front, last);
      assert last.client !in Clients(front);
      if last.client != c {
        ClientsAppend(Drop(front, c), last);
        forall i: nat | i < |Drop(front, c)| ensures Drop(front, c)[i].client != last.client {
          ClientAt(Drop(front, c), i);
        }
      } else {
        assert Drop(regs, c) == Drop(front, c);
      }
    }
  }

  lemma {:induction false} DropMembers(regs: Registry, c: ClientId)
    ensures forall reg :: reg in Drop(regs, c) ==> reg in regs && reg.client != c
  {
    if regs != [] {
      DropMembers(regs[..|regs| - 1], c);
    }
  }

  /** Dropping a client removes it from every handler list. */
  lemma {:induction false} DropHandlers(regs: Registry, c: ClientId, q: QueryId)
    ensures HandlersOf(Drop(regs, c), q) == Without(HandlersOf(regs, q), c)
  {
    if regs != [] {
      var front, last := regs[..|regs| - 1], regs[|regs| - 1];
      DropHandlers(front, c, q);
      WithoutAppend(HandlersOf(front, q), Copies(last.client, Occurrences(last.queries, q)), c);
      WithoutCopies(last.client, Occurrences(last.queries, q), c);
      if last.client != c {
        assert Drop(regs, c)[..|Drop(front, c)|] == Drop(front, c);
      } else {
        assert Drop(regs, c) == Drop(front, c);
      }
    }
  }

  lemma RegisterReflects(b: Broker, regs: Registry, m: ClientMessage, now: int, net: Net)
    requires m.RegisterClient? && Reflects(b, regs)
    ensures Reflects(Register(b, m, now, net).state, Replay(regs, Register(b, m, now, net).out))
  {
    var r := Register(b, m, now, net);
    if m.client !in b.connected && net(m.client, m.tx, ClientRegistered(m.client)) {
      ReplayOne(regs, r.out[0]);
      ReplayOne(regs, r.out[1]);
      ReplayAppend(regs, [r.out[0]], [r.out[1]]);
      assert r.out == [r.out[0]] + [r.out[1]];
      AcceptedReflects(b, regs, m, now, r.state);
    } else {
      ReplayQuiet(regs, r.out);
    }
  }

  lemma AcceptedClients(b: Broker, regs: Registry, reg: Registration, now: int, b': Broker)
    requires DistinctClients(regs) && b.connected.Keys == Clients(regs) && OwnChannels(b, regs)
             && reg.client !in b.connected
    requires b'.connected == b.connected[reg.client := ClientInfo(reg.tx, now)]
    ensures DistinctClients(regs + [reg]) && b'.connected.Keys == Clients(regs + [reg]) && OwnChannels(b', regs + [reg])
  {
    ClientsAppend(regs, reg);
    forall i: nat | i < |regs| ensures regs[i].client != reg.client {
      ClientAt(regs, i);
    }
  }

  lemma AcceptedHandlers(b: Broker, regs: Registry, reg: Registration, q: QueryId)
    requires Lookup(b.handlers, q) == HandlersOf(regs, q)
    ensures Lookup(AddAll(b.handlers, reg.client, reg.queries), q) == HandlersOf(regs + [reg], q)
  {
    LookupAfterAdd(b.handlers, reg.client, reg.queries, q);
    assert (regs + [reg])[..|regs|] == regs;
  }

  lemma AcceptedReflects(b: Broker, regs: Registry, m: ClientMessage, now: int, b': Broker)
    requires m.RegisterClient? && Reflects(b, regs) && m.client !in b.connected
    requires b' == b.(connected := b.connected[m.client := ClientInfo(m.tx, now)],
             handlers := AddAll(b.handlers, m.client, m.queries))
    ensures Reflects(b', regs + [Registration(m.client, m.queries, m.tx)])
  {
    var reg := Registration(m.client, m.queries, m.tx);
    AcceptedClients(b, regs, reg, now, b');
    AddKeepsNonEmpty(b.handlers, m.client, m.queries);
    forall q ensures Lookup(b'.handlers, q) == HandlersOf(regs + [reg], q) {
      AcceptedHandlers(b, regs, reg, q);
    }
  }

  lemma DisconnectReflects(b: Broker, regs: Registry, c: ClientId)
    requires Reflects(b, regs)
    ensures Reflects(Disconnect(b, c).state, Replay(regs, Disconnect(b, c).out))
  {
    var r := Disconnect(b, c);
    ReplayOne(regs, Disconnected(c));
    forall q ensures Lookup(r.state.handlers, q) == HandlersOf(Drop(regs, c), q) {
      LookupAfterRemove(b.handlers, c, q);
      DropHandlers(regs, c, q);
    }
    DropClients(regs, c);
    DropMembers(regs, c);
    assert forall i :: 0 <= i < |Drop(regs, c)| ==> Drop(regs, c)[i] in Drop(regs, c);
  }

  lemma TouchReflects(b: Broker, regs: Registry, source: Option<ClientId>, now: int)
    requires Reflects(b, regs)
    ensures Reflects(Touch(b, source, now), regs)
  {
    assert Touch(b, source, now).connected.Keys == b.connected.Keys;
  }

  lemma {:induction false} HandleReflects(b: Broker, regs: Registry, m: ClientMessage, now: int, net: Net,
                                          st: EventStore.Storage)
    requires Reflects(b, regs)
    ensures var r := HandleMessage(b, m, now, net, st); Reflects(r.state, Replay(regs, r.out))
  {
    TouchReflects(b, regs, m.Source(), now);
    DispatchReflects(Touch(b, m.Source(), now), regs, m, now, net, st);
  }

  lemma DispatchReflects(b: Broker, regs: Registry, m: ClientMessage, now: int, net: Net, st: EventStore.Storage)
    requires Reflects(b, regs)
    ensures var r := Dispatch(b, m, now, net, st); Reflects(r.state, Replay(regs, r.out))
  {
    if m.RegisterClient? {
      RegisterReflects(b, regs, m, now, net);
    } else if m.DisconnectClient? {
      DisconnectReflects(b, regs, m.client);
    } else {
      OthersKeepClients(b, m, now, net, st);
      ReplayQuiet(regs, Dispatch(b, m, now, net, st).out);
    }
  }

  lemma {:induction false} ProbeAllReflects(b: Broker, regs: Registry, olds: seq<(ClientId, Tx)>, now: int, net: Net)
    requires Reflects(b, regs)
    ensures var r := ProbeAll(b, olds, now, net); Reflects(r.state, Replay(regs, r.out))
  {
    if olds != [] {
      var front, last := olds[..|olds| - 1], olds[|olds| - 1];
      ProbeAllReflects(b, regs, front, now, net);
      var before := ProbeAll(b, front, now, net);
      var regs1, ok := Replay(regs, before.out), net(last.0, last.1, ServerHeartbeat);
      var m := if ok then Heartbeat(last.0) else DisconnectClient(last.0);
      HandleReflects(before.state, regs1, m, now, net, NO_STORAGE);
      var handled := HandleMessage(before.state, m, now, net, NO_STORAGE);
      ReplayQuiet(regs1, [Sent(last.0, last.1, ServerHeartbeat, ok)]);
      ReplayAppend(regs1, [Sent(last.0, last.1, ServerHeartbeat, ok)], handled.out);
      ReplayAppend(regs, before.out, Probe(before.state, last, now, net).out);
    }
  }

  lemma StepReflects(s: System, regs: Registry, step: Step)
    requires Reflects(s.broker, regs)
    ensures Reflects(Apply(s, step).next.broker, Replay(regs, Apply(s, step).out))
  {
    match step
    case Receive(m, net, st) => HandleReflects(s.broker, regs, m, s.now, net, st);
    case Tick(olds, expired, net) =>
      var probed := ProbeAll(s.broker, olds, s.now, net);
      ProbeAllReflects(s.broker, regs, olds, s.now, net);
      ExpireAllKeepsClients(probed.state, expired, net);
      ExpirySays(probed.state, expired, net);
      ReplayQuiet(Replay(regs, probed.out), ExpireAll(probed.state, expired, net).out);
      ReplayAppend(regs, probed.out, ExpireAll(probed.state, expired, net).out);
    case Broadcast(job, order, net) =>
      if job < |s.broker.jobs| {
        BroadcastSays(s.broker, order, SourceEventBroadcast(s.broker.jobs[job]), net);
        ReplayQuiet(regs, Apply(s, step).out);
      }
    case Advance(_) =>
  }

  /** Index refinement: after any steps, the connected clients and the handler index are exactly those of
      the registrations in the trace, and a query has an entry exactly when its list is not empty. */
  lemma {:induction false} IndexRefinesRegistrations(s: System, regs: Registry, steps: seq<Step>)
    requires Reflects(s.broker, regs)
    ensures var r := Exec(s, steps);
            var now := Replay(regs, r.out);
            && Reflects(r.next.broker, now)
            && forall q :: (q in r.next.broker.handlers <==> HandlersOf(now, q) != [])
                           && (q in r.next.broker.handlers ==> r.next.broker.handlers[q] == HandlersOf(now, q))
    decreases |steps|
  {
    if steps != [] {
      var front := steps[..|steps| - 1];
      IndexRefinesRegistrations(s, regs, front);
      var before := Exec(s, front);
      StepReflects(before.next, Replay(regs, before.out), steps[|steps| - 1]);
      ReplayAppend(regs, before.out, Apply(before.next, steps[|steps| - 1]).out);
    }
    var b, now := Exec(s, steps).next.broker, Replay(regs, Exec(s, steps).out);
    forall q
      ensures (q in b.handlers <==> HandlersOf(now, q) != [])
              && (q in b.handlers ==> b.handlers[q] == HandlersOf(now, q))
    {
      assert Lookup(b.handlers, q) == HandlersOf(now, q);
    }
  }

  /** A fresh broker reflects no registrations. */
  lemma StartReflects(t: int)
    ensures Reflects(Start(t).broker, [])
  {
    assert Clients([]) == {};
  }

  // ---------- consequences ----------

  /** The handlers of a query are the clients that declared it, and all of them are connected. */
  lemma {:induction false} HandlersDeclared(regs: Registry, q: QueryId, c: ClientId)
    ensures c in HandlersOf(regs, q) <==> exists i :: 0 <= i < |regs| && regs[i].client == c && q in regs[i].queries
  {
    if regs != [] {
      var front, last := regs[..|regs| - 1], regs[|regs| - 1];
      HandlersDeclared(front, q, c);
      OccurrencesPositive(last.queries, q);
      var copies := Copies(last.client, Occurrences(last.queries, q));
      if c in HandlersOf(regs, q) {
        if c in HandlersOf(front, q) {
          var i :| 0 <= i < |front| && front[i].client == c && q in front[i].queries;
          assert regs[i] == front[i];
        } else {
          assert c in copies;
          assert regs[|regs| - 1].client == c && q in regs[|regs| - 1].queries;
        }
      }
      if i :| 0 <= i < |regs| && regs[i].client == c && q in regs[i].queries {
        if i < |front| {
          assert front[i] == regs[i];
        } else {
          assert copies[0] in copies && copies[0] in HandlersOf(regs, q);
        }
      }
    }
  }

  lemma {:induction false} OccurrencesPositive(queries: seq<QueryId>, q: QueryId)
    ensures Occurrences(queries, q) > 0 <==> q in queries
  {
    if queries != [] {
      assert queries == [queries[0]] + queries[1..];
      OccurrencesPositive(queries[1..], q);
    }
  }

  /** Every listed handler is a connected client that declared the query. */
  lemma ListedIsConnected(b: Broker, regs: Registry, q: QueryId, c: ClientId)
    requires Reflects(b, regs) && c in Lookup(b.handlers, q)
    ensures c in b.connected && Declared(regs, c, q)
  {
    HandlersDeclared(regs, q, c);
    var i :| 0 <= i < |regs| && regs[i].client == c && q in regs[i].queries;
    assert regs[i].client in Clients(regs);
  }

  /** `c` is connected with a declared list that contains `q`. */
  ghost predicate Declared(regs: Registry, c: ClientId, q: QueryId) {
    exists i :: 0 <= i < |regs| && regs[i].client == c && q in regs[i].queries
  }

  /** Registering a new client and disconnecting it again restores both tables exactly,
      list order and absent keys included, whatever list it declared. */
  lemma RegisterThenDisconnect(b: Broker, regs: Registry, m: ClientMessage, now: int, net: Net)
    requires Reflects(b, regs) && m.RegisterClient? && m.client !in b.connected
    requires net(m.client, m.tx, ClientRegistered(m.client))
    ensures Disconnect(Register(b, m, now, net).state, m.client).state == b
  {
    var b1 := Register(b, m, now, net).state;
    var b2 := Disconnect(b1, m.client).state;
    assert b2.connected == b.connected;
    AddKeepsNonEmpty(b.handlers, m.client, m.queries);
    forall q ensures Lookup(b2.handlers, q) == Lookup(b.handlers, q) {
      LookupAfterAdd(b.handlers, m.client, m.queries, q);
      LookupAfterRemove(b1.handlers, m.client, q);
      WithoutAppend(Lookup(b.handlers, q), Copies(m.client, Occurrences(m.queries, q)), m.client);
      WithoutCopies(m.client, Occurrences(m.queries, q), m.client);
      if m.client in Lookup(b.handlers, q) {
        ListedIsConnected(b, regs, q, m.client);
      }
      WithoutMembers(Lookup(b.handlers, q), m.client);
    }
    IndexExtensional(b2.handlers, b.handlers);
  }

  /** No silent loss: a fresh request of a connected requester either becomes ongoing at a connected client
      that declared the query and was sent the request, or the requester is sent QueryHandlerNotFound;
      in either case nothing else happens to the request tables. */
  lemma FreshRequestIsNotLost(b: Broker, regs: Registry, m: ClientMessage, now: int, net: Net)
    requires Reflects(b, regs) && m.QueryRequest? && m.requestId !in b.ongoing && m.requester in b.connected
    ensures var r := Request(b, m, now, net);
            || (exists responder ::
                  && responder in b.connected && Declared(regs, responder, m.queryId)
                  && var o := Ongoing(m.requestId, m.queryId, m.parameters, m.requester, responder, now);
                  && r.state.ongoing == b.ongoing[m.requestId := o]
                  && r.out == [Sent(responder, b.connected[responder].tx, Ask(m), true), Dispatched(o)])
            || (&& r.state.ongoing == b.ongoing
                && |r.out| >= 1 && r.out[|r.out| - 1].Sent?
                && r.out[|r.out| - 1].to == m.requester && r.out[|r.out| - 1].tx == b.connected[m.requester].tx
                && r.out[|r.out| - 1].msg == NotFound(m))
    ensures Request(b, m, now, net).state == b.(ongoing := Request(b, m, now, net).state.ongoing,
                                                cursor := Request(b, m, now, net).state.cursor)
  {
    SelectReturnsMember(b.handlers, b.cursor, m.queryId);
    var selection, r := Select(b.handlers, b.cursor, m.queryId), Request(b, m, now, net);
    if selection.Selected? {
      var responder := selection.client;
      ListedIsConnected(b, regs, m.queryId, responder);
      if Reaches(b, responder, Ask(m), net) {
        var o := Ongoing(m.requestId, m.queryId, m.parameters, m.requester, responder, now);
        assert r.state.ongoing == b.ongoing[m.requestId := o];
        assert r.out == [Sent(responder, b.connected[responder].tx, Ask(m), true), Dispatched(o)];
      }
    }
  }

  /** The branches for a selected responder that is not connected, and for a selection without a responder, are dead. */
  lemma DeadBranches(b: Broker, regs: Registry, q: QueryId)
    requires Reflects(b, regs)
    ensures match Select(b.handlers, b.cursor, q)
            case Selected(responder) => responder in b.connected
            case HandlerNotFound => q !in b.handlers
            case ResponderNotFound => false
  {
    SelectReturnsMember(b.handlers, b.cursor, q);
    var selection := Select(b.handlers, b.cursor, q);
    if selection.Selected? {
      ListedIsConnected(b, regs, q, selection.client);
    }
  }
}

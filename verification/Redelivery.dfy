/** Resending a request that is in progress is invisible
    (src/domain/state.rs:168-192, src/domain/state.rs:230-237, src/domain/query_handlers.rs:174-178). */
module Redelivery {
  import opened Ids
  import opened Messages
  import opened QueryHandlers
  import opened StateMachine

  /** The same broker except for when clients were last seen. */
  ghost predicate SameButSeen(a: Broker, b: Broker) {
    && a.handlers == b.handlers && a.cursor == b.cursor && a.ongoing == b.ongoing && a.rows == b.rows
        && a.jobs == b.jobs
    && a.connected.Keys == b.connected.Keys
    && forall c :: c in a.connected ==> a.connected[c].tx == b.connected[c].tx
  }

  lemma NotifySame(a: Broker, b: Broker, c: ClientId, msg: ServerMessage, net: Net)
    requires SameButSeen(a, b)
    ensures Notify(a, c, msg, net) == Notify(b, c, msg, net) && (Reaches(a, c, msg, net) <==> Reaches(b, c, msg, net))
  {
  }

  /** Every message handler treats such brokers alike and keeps them alike. */
  lemma {:induction false} HandleSame(a: Broker, b: Broker, m: ClientMessage, now: int, net: Net,
                                      st: EventStore.Storage)
    requires SameButSeen(a, b)
    ensures var ra, rb := HandleMessage(a, m, now, net, st), HandleMessage(b, m, now, net, st);
            ra.out == rb.out && SameButSeen(ra.state, rb.state)
  {
    var a1, b1 := Touch(a, m.Source(), now), Touch(b, m.Source(), now);
    assert SameButSeen(a1, b1);
    DispatchSame(a1, b1, m, now, net, st);
  }

  lemma {:induction false} DispatchSame(a: Broker, b: Broker, m: ClientMessage, now: int, net: Net,
                                        st: EventStore.Storage)
    requires SameButSeen(a, b)
    ensures var ra, rb := Dispatch(a, m, now, net, st), Dispatch(b, m, now, net, st);
            ra.out == rb.out && SameButSeen(ra.state, rb.state)
  {
    match m
    case QueryRequest(_, _, _, _) => RequestSame(a, b, m, now, net);
    case QueryResponse(r, _, result) =>
      if r in a.ongoing {
        CloseSame(a, b, r, QueryResponded(r, result), net);
      }
    case QueryHandlingFailed(r, _, reason) =>
      if r in a.ongoing {
        CloseSame(a, b, r, QueryRequestedFailed(r, a.ongoing[r].queryId, HandlingError(reason)), net);
      }
    case RegisterSourceEvent(_, _, _, _, _) => PublishSame(a, b, m, net, st);
    case _ =>
  }

  lemma PublishSame(a: Broker, b: Broker, m: ClientMessage, net: Net, st: EventStore.Storage)
    requires SameButSeen(a, b) && m.RegisterSourceEvent?
    ensures Publish(a, m, net, st).out == Publish(b, m, net, st).out
    ensures SameButSeen(Publish(a, m, net, st).state, Publish(b, m, net, st).state)
  {
  }

  lemma CloseSame(a: Broker, b: Broker, r: RequestId, msg: ServerMessage, net: Net)
    requires SameButSeen(a, b) && r in a.ongoing
    ensures Close(a, r, msg, net).out == Close(b, r, msg, net).out
    ensures SameButSeen(Close(a, r, msg, net).state, Close(b, r, msg, net).state)
  {
    NotifySame(a, b, a.ongoing[r].requester, msg, net);
  }

  lemma RequestSame(a: Broker, b: Broker, m: ClientMessage, now: int, net: Net)
    requires SameButSeen(a, b) && m.QueryRequest?
    ensures Request(a, m, now, net).out == Request(b, m, now, net).out
    ensures SameButSeen(Request(a, m, now, net).state, Request(b, m, now, net).state)
  {
    NotifySame(a, b, m.requester, Duplicated(m), net);
    NotifySame(a, b, m.requester, NotFound(m), net);
    var selection := Select(a.handlers, a.cursor, m.queryId);
    if selection.Selected? {
      NotifySame(a, b, selection.client, Ask(m), net);
    }
  }

  lemma {:induction false} SendAllSame(a: Broker, b: Broker, order: seq<ClientId>, msg: ServerMessage, net: Net)
    requires SameButSeen(a, b)
    ensures SendAll(a, order, msg, net) == SendAll(b, order, msg, net)
  {
    if order != [] {
      SendAllSame(a, b, order[..|order| - 1], msg, net);
    }
  }

  /** Tick-free runs at equal clock readings cannot tell such brokers apart. */
  lemma {:induction false} RunsSame(s: System, t: System, steps: seq<Step>)
    requires SameButSeen(s.broker, t.broker) && s.now == t.now
    requires forall i :: 0 <= i < |steps| ==> !steps[i].Tick?
    ensures Exec(s, steps).out == Exec(t, steps).out
    ensures SameButSeen(Exec(s, steps).next.broker, Exec(t, steps).next.broker)
    ensures Exec(s, steps).next.now == Exec(t, steps).next.now
    decreases |steps|
  {
    if steps != [] {
      var front, last := steps[..|steps| - 1], steps[|steps| - 1];
      RunsSame(s, t, front);
      var s1, t1 := Exec(s, front).next, Exec(t, front).next;
      match last
      case Receive(m, net, st) => HandleSame(s1.broker, t1.broker, m, s1.now, net, st);
      case Broadcast(job, order, net) =>
        if job < |s1.broker.jobs| {
          SendAllSame(s1.broker, t1.broker, order, SourceEventBroadcast(s1.broker.jobs[job]), net);
        }
      case Advance(_) =>
    }
  }

  /** A request for another query or from another client that reuses an open id changes nothing but `last_seen`, and
      its own sender is told so. */
  lemma ReusedIdIsRefused(s: System, m: ClientMessage, net: Net, st: EventStore.Storage)
    requires m.QueryRequest? && m.requestId in s.broker.ongoing
    requires s.broker.ongoing[m.requestId].queryId != m.queryId
             || s.broker.ongoing[m.requestId].requester != m.requester
    ensures var refused := Apply(s, Receive(m, net, st));
            && SameButSeen(refused.next.broker, s.broker)
            && refused.out == Notify(s.broker, m.requester,
                QueryRequestedFailed(m.requestId, m.queryId, RequestIdDuplicated), net)
  {
    NotifySame(Touch(s.broker, m.Source(), s.now), s.broker, m.requester, Duplicated(m), net);
  }

  /** Invisible redelivery: resending a request that is in progress, even with other parameters, sends nothing and
      changes nothing but `last_seen`; and every later tick-free run sends exactly the messages it would have sent
      anyway. */
  lemma {:induction false} RedeliveryIsInvisible(s: System, m: ClientMessage, net: Net, st: EventStore.Storage,
                                                 steps: seq<Step>)
    requires m.QueryRequest? && m.requestId in s.broker.ongoing && FiledUnderOwnId(s.broker.ongoing)
    requires s.broker.ongoing[m.requestId].queryId == m.queryId
             && s.broker.ongoing[m.requestId].requester == m.requester
    requires forall i :: 0 <= i < |steps| ==> !steps[i].Tick?
    ensures var again := Apply(s, Receive(m, net, st));
            && again.out == [] && SameButSeen(again.next.broker, s.broker)
            && Exec(again.next, steps).out == Exec(s, steps).out
  {
    RunsSame(Apply(s, Receive(m, net, st)).next, s, steps);
  }
}

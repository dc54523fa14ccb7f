/** What a tick sends about each client and each request, and nothing else (src/domain/state.rs:105-161). */
module TickEvents {
  import opened Ids
  import opened Messages
  import opened QueryHandlers
  import opened StateMachine
  import opened Requests
  import opened Timing
  import opened Ticks

  /** The probe of a client, or the timeout of a request. */
  datatype Topic = ProbeOf(c: ClientId) | TimeoutOf(r: RequestId)

  predicate About(topic: Topic, e: Event) {
    match topic
    case ProbeOf(c) => (e.Sent? && e.msg.ServerHeartbeat? && e.to == c) || (e.Disconnected? && e.client == c)
    case TimeoutOf(r) =>
      || (e.Sent? && e.msg.QueryRequestedFailed? && e.msg.reason.QueryTimedOut? && e.msg.requestId == r)
      || (e.TimedOut? && e.requestId == r)
  }

  /** The events about `topic`, in order. */
  function Only(topic: Topic, out: seq<Event>): seq<Event> {
    if out == [] then []
    else Only(topic, out[..|out| - 1]) + if About(topic, out[|out| - 1]) then [out[|out| - 1]] else []
  }

  lemma {:induction false} OnlyAppend(topic: Topic, out: seq<Event>, more: seq<Event>)
    ensures Only(topic, out + more) == Only(topic, out) + Only(topic, more)
  {
    if more == [] {
      assert out + more == out;
    } else {
      var front, last := more[..|more| - 1], more[|more| - 1];
      OnlyAppend(topic, out, front);
      assert (out + more)[..|out + more| - 1] == out + front;
      Regroup(Only(topic, out), Only(topic, front), if About(topic, last) then [last] else []);
    }
  }

  lemma {:induction false} OnlyEither(topic: Topic, out: seq<Event>, more: seq<Event>)
    ensures Only(topic, more) == [] ==> Only(topic, out + more) == Only(topic, out)
    ensures Only(topic, out) == [] ==> Only(topic, out + more) == Only(topic, more)
  {
    OnlyAppend(topic, out, more);
  }

  lemma OnlyOne(topic: Topic, e: Event)
    ensures Only(topic, [e]) == if About(topic, e) then [e] else []
  {
    assert [e][..0] == [];
  }

  lemma {:induction false} OnlyNone(topic: Topic, out: seq<Event>)
    requires forall e :: e in out ==> !About(topic, e)
    ensures Only(topic, out) == []
  {
    if out != [] {
      OnlyNone(topic, out[..|out| - 1]);
    }
  }

  lemma OnlyAll(topic: Topic, out: seq<Event>)
    requires |out| <= 2 && forall e :: e in out ==> About(topic, e)
    ensures Only(topic, out) == out
  {
    if |out| == 1 {
      OnlyOne(topic, out[0]);
      assert out == [out[0]];
    } else if |out| == 2 {
      OnlyAppend(topic, [out[0]], [out[1]]);
      OnlyOne(topic, out[0]);
      OnlyOne(topic, out[1]);
      assert out == [out[0]] + [out[1]];
    }
  }

  lemma {:induction false} OnlyFlatNone<T>(topic: Topic, f: T -> seq<Event>, xs: seq<T>)
    requires forall i :: 0 <= i < |xs| ==> Only(topic, f(xs[i])) == []
    ensures Only(topic, Flat(f, xs)) == []
  {
    if xs != [] {
      var front := xs[..|xs| - 1];
      OnlyFlatNone(topic, f, front);
      OnlyEither(topic, Flat(f, front), f(xs[|xs| - 1]));
    }
  }

  /** If only element `k` says anything about the topic, then only what it says is said. */
  lemma {:induction false} OnlyFlatAt<T>(topic: Topic, f: T -> seq<Event>, xs: seq<T>, k: nat)
    requires k < |xs| && forall i :: 0 <= i < |xs| && i != k ==> Only(topic, f(xs[i])) == []
    ensures Only(topic, Flat(f, xs)) == Only(topic, f(xs[k]))
  {
    var front := xs[..|xs| - 1];
    if k < |front| {
      OnlyFlatAt(topic, f, front, k);
    } else {
      OnlyFlatNone(topic, f, front);
    }
    OnlyEither(topic, Flat(f, front), f(xs[|xs| - 1]));
  }

  // ---------- the probes ----------

  /** One probe says what happened to its client, and nothing about the others. */
  lemma ProbeAbout(stale: (ClientId, Tx), net: Net, c: ClientId)
    ensures Only(ProbeOf(c), ProbeEvents(stale, net)) == if stale.0 == c then ProbeEvents(stale, net) else []
  {
    if stale.0 == c {
      OnlyAll(ProbeOf(c), ProbeEvents(stale, net));
    } else {
      OnlyNone(ProbeOf(c), ProbeEvents(stale, net));
    }
  }

  lemma {:induction false} ProbesAbout(b: Broker, olds: seq<(ClientId, Tx)>, now: int, net: Net, c: ClientId)
    requires AreClients(b, olds)
    ensures c !in IdsIn(olds) ==> Only(ProbeOf(c), ProbeAll(b, olds, now, net).out) == []
    ensures c in IdsIn(olds) ==>
              Only(ProbeOf(c), ProbeAll(b, olds, now, net).out) == ProbeEvents((c, b.connected[c].tx), net)
  {
    var f := (x: (ClientId, Tx)) => ProbeEvents(x, net);
    ProbesFlat(b, olds, now, net, f);
    forall i | 0 <= i < |olds|
      ensures Only(ProbeOf(c), f(olds[i])) == if olds[i].0 == c then ProbeEvents(olds[i], net) else []
    {
      ProbeAbout(olds[i], net, c);
    }
    if c in IdsIn(olds) {
      var k :| 0 <= k < |olds| && olds[k].0 == c;
      OnlyFlatAt(ProbeOf(c), f, olds, k);
    } else {
      OnlyFlatNone(ProbeOf(c), f, olds);
    }
  }

  /** A tick sends one heartbeat to each client not seen for longer than the expiration, on its channel, and
      disconnects it next exactly when that fails; it does neither to any other client. */
  lemma TickProbesExactly(limits: Limits, s: System, step: Step, c: ClientId)
    requires step.Tick? && Enabled(limits, s, step)
    ensures Only(ProbeOf(c), Apply(s, step).out) ==
            if c !in s.broker.connected || s.now - s.broker.connected[c].lastSeen <= limits.expiration then []
            else
              var tx := s.broker.connected[c].tx;
              var ok := step.net(c, tx, ServerHeartbeat);
              [Sent(c, tx, ServerHeartbeat, ok)] + if ok then [] else [Disconnected(c)]
  {
    var probed := ProbeAll(s.broker, step.olds, s.now, step.net);
    var dropped := ExpireAll(probed.state, step.expired, step.net);
    EnabledTickClients(limits, s, step);
    ProbesAbout(s.broker, step.olds, s.now, step.net, c);
    ExpirySays(probed.state, step.expired, step.net);
    OnlyNone(ProbeOf(c), dropped.out);
    OnlyAppend(ProbeOf(c), probed.out, dropped.out);
  }

  // ---------- the timeouts ----------

  /** What is said when `o` times out: a notice to its requester, if connected, and the mark of its removal. */
  function Notice(b: Broker, o: Ongoing, net: Net): seq<Event> {
    if o.requester in b.connected then
      var tx, msg := b.connected[o.requester].tx, QueryRequestedFailed(o.requestId, o.queryId, QueryTimedOut);
      [Sent(o.requester, tx, msg, net(o.requester, tx, msg)), TimedOut(o.requestId, o.queryId)]
    else [TimedOut(o.requestId, o.queryId)]
  }

  lemma ExpiryOfOther(b: Broker, o: Ongoing, net: Net, r: RequestId)
    requires o.requestId != r
    ensures Only(TimeoutOf(r), ExpiryEvents(b, o, net)) == []
  {
    OnlyNone(TimeoutOf(r), ExpiryEvents(b, o, net));
  }

  lemma ExpiryOfOwn(b: Broker, o: Ongoing, net: Net)
    ensures Only(TimeoutOf(o.requestId), ExpiryEvents(b, o, net)) == Notice(b, o, net)
  {
    assert ExpiryEvents(b, o, net) == Notice(b, o, net);
    OnlyAll(TimeoutOf(o.requestId), Notice(b, o, net));
  }

  lemma {:induction false} OtherExpiries(b: Broker, expired: seq<Ongoing>, net: Net, r: RequestId)
    requires ListsOngoing(b.ongoing, expired) && r !in IdsOf(expired)
    ensures Only(TimeoutOf(r), ExpireAll(b, expired, net).out) == []
  {
    var f := (o: Ongoing) => ExpiryEvents(b, o, net);
    ExpiryFlat(b, expired, net, f);
    forall i | 0 <= i < |expired| ensures Only(TimeoutOf(r), f(expired[i])) == [] {
      ExpiryOfOther(b, expired[i], net, r);
    }
    OnlyFlatNone(TimeoutOf(r), f, expired);
  }

  lemma {:induction false} ExpiryAt(b: Broker, expired: seq<Ongoing>, net: Net, k: nat)
    requires ListsOngoing(b.ongoing, expired) && k < |expired|
    ensures Only(TimeoutOf(expired[k].requestId), ExpireAll(b, expired, net).out) == Notice(b, expired[k], net)
  {
    var r, f := expired[k].requestId, (o: Ongoing) => ExpiryEvents(b, o, net);
    ExpiryFlat(b, expired, net, f);
    forall i | 0 <= i < |expired| && i != k ensures Only(TimeoutOf(r), f(expired[i])) == [] {
      ExpiryOfOther(b, expired[i], net, r);
    }
    OnlyFlatAt(TimeoutOf(r), f, expired, k);
    ExpiryOfOwn(b, expired[k], net);
  }

  lemma {:induction false} ExpiriesAbout(b: Broker, expired: seq<Ongoing>, net: Net, r: RequestId)
    requires ListsOngoing(b.ongoing, expired)
    ensures r !in IdsOf(expired) ==> Only(TimeoutOf(r), ExpireAll(b, expired, net).out) == []
    ensures r in IdsOf(expired) ==>
              Only(TimeoutOf(r), ExpireAll(b, expired, net).out) == Notice(b, b.ongoing[r], net)
  {
    if r in IdsOf(expired) {
      var k :| 0 <= k < |expired| && expired[k].requestId == r;
      ExpiryAt(b, expired, net, k);
    } else {
      OtherExpiries(b, expired, net, r);
    }
  }

  /** A tick tells the requester of each request open for longer than the timeout, once and on its channel, that the
      request timed out, if the probes left it connected; it says nothing about any other request. */
  lemma TickExpiresExactly(limits: Limits, s: System, step: Step, r: RequestId)
    requires step.Tick? && Enabled(limits, s, step)
    requires FiledUnderOwnId(s.broker.ongoing) && NoEmptyLists(s.broker.handlers)
    ensures Only(TimeoutOf(r), Apply(s, step).out) ==
            if r !in s.broker.ongoing || s.now - s.broker.ongoing[r].createdAt <= limits.timeout then []
            else
              var o := s.broker.ongoing[r];
              var c, msg := o.requester, QueryRequestedFailed(r, o.queryId, QueryTimedOut);
              if c in s.broker.connected && (s.now - s.broker.connected[c].lastSeen > limits.expiration ==>
                                               step.net(c, s.broker.connected[c].tx, ServerHeartbeat))
              then
                var tx := s.broker.connected[c].tx;
                [Sent(c, tx, msg, step.net(c, tx, msg)), TimedOut(r, o.queryId)]
              else [TimedOut(r, o.queryId)]
  {
    var probed := ProbeAll(s.broker, step.olds, s.now, step.net);
    var dropped := ExpireAll(probed.state, step.expired, step.net);
    EnabledTickClients(limits, s, step);
    ProbesSay(s.broker, step.olds, s.now, step.net);
    OnlyNone(TimeoutOf(r), probed.out);
    OnlyAppend(TimeoutOf(r), probed.out, dropped.out);
    ProbeAllKeepsRequests(s.broker, step.olds, s.now, step.net);
    ProbeAllBySet(s.broker, step.olds, s.now, step.net);
    EnabledTickLists(limits, s, step);
    ExpiriesAbout(probed.state, step.expired, step.net, r);
  }
}

/** A tick's effect does not depend on the order in which the hash tables are iterated
    (src/domain/state.rs:105-161). */
module Ticks {
  import opened Ids
  import opened Messages
  import opened QueryHandlers
  import opened StateMachine
  import opened Requests
  import opened Timing

  function WithoutAll(xs: seq<ClientId>, gone: set<ClientId>): seq<ClientId> {
    if xs == [] then [] else (if xs[0] in gone then [] else [xs[0]]) + WithoutAll(xs[1..], gone)
  }

  /** The index without the clients in `gone`. */
  function Prune(index: Index, gone: set<ClientId>): Index {
    map q | q in index && WithoutAll(index[q], gone) != [] :: WithoutAll(index[q], gone)
  }

  /** The client table after probing `probed`: those that could not be reached are gone, the others were seen now. */
  function Probed(connected: map<ClientId, ClientInfo>, probed: set<ClientId>, now: int, net: Net): map<ClientId,
                  ClientInfo> {
    map c | c in connected && (c in probed ==> net(c, connected[c].tx, ServerHeartbeat))
      :: if c in probed then connected[c].(lastSeen := now) else connected[c]
  }

  function Unreachable(connected: map<ClientId, ClientInfo>, probed: set<ClientId>, net: Net): set<ClientId> {
    set c | c in probed && c in connected && !net(c, connected[c].tx, ServerHeartbeat)
  }

  lemma {:induction false} WithoutOneMore(xs: seq<ClientId>, gone: set<ClientId>, c: ClientId)
    ensures Without(WithoutAll(xs, gone), c) == WithoutAll(xs, gone + {c})
  {
    if xs != [] {
      WithoutOneMore(xs[1..], gone, c);
      WithoutAppend(if xs[0] in gone then [] else [xs[0]], WithoutAll(xs[1..], gone), c);
      assert Without([xs[0]], c) == if xs[0] == c then [] else [xs[0]];
    }
  }

  lemma PruneOneMore(index: Index, gone: set<ClientId>, c: ClientId)
    ensures RemoveClient(Prune(index, gone), c) == Prune(index, gone + {c})
  {
    forall q | q in index ensures Without(WithoutAll(index[q], gone), c) == WithoutAll(index[q], gone + {c}) {
      WithoutOneMore(index[q], gone, c);
    }
    assert RemoveClient(Prune(index, gone), c).Keys == Prune(index, gone + {c}).Keys;
  }

  lemma {:induction false} WithoutNone(xs: seq<ClientId>)
    ensures WithoutAll(xs, {}) == xs
  {
    if xs != [] {
      WithoutNone(xs[1..]);
    }
  }

  ghost function IdsIn(olds: seq<(ClientId, Tx)>): set<ClientId> {
    set i | 0 <= i < |olds| :: olds[i].0
  }

  /** `olds` are connected clients with their channels, each once. */
  ghost predicate AreClients(b: Broker, olds: seq<(ClientId, Tx)>) {
    && (forall i :: 0 <= i < |olds| ==> olds[i].0 in b.connected && olds[i].1 == b.connected[olds[i].0].tx)
    && (forall i, j :: 0 <= i < j < |olds| ==> olds[i].0 != olds[j].0)
  }

  /** One probe on tables that were already probed for others. */
  lemma ProbeOneMore(b: Broker, probed: set<ClientId>, c: ClientId, now: int, net: Net)
    requires c in b.connected && c !in probed
    ensures var before := b.(connected := Probed(b.connected, probed, now, net),
            handlers := Prune(b.handlers, Unreachable(b.connected, probed, net)));
            var after := b.(connected := Probed(b.connected, probed + {c}, now, net),
                            handlers := Prune(b.handlers, Unreachable(b.connected, probed + {c}, net)));
            Probe(before, (c, b.connected[c].tx), now, net).state == after
  {
    var tx, gone := b.connected[c].tx, Unreachable(b.connected, probed, net);
    if net(c, tx, ServerHeartbeat) {
      assert Unreachable(b.connected, probed + {c}, net) == gone;
      assert Probed(b.connected, probed + {c}, now, net)
          == Probed(b.connected, probed, now, net)[c := b.connected[c].(lastSeen := now)];
    } else {
      assert Unreachable(b.connected, probed + {c}, net) == gone + {c};
      PruneOneMore(b.handlers, gone, c);
      assert Probed(b.connected, probed + {c}, now, net) == Probed(b.connected, probed, now, net) - {c};
    }
  }

  /** What probing leaves depends only on which clients were probed. */
  lemma {:induction false} ProbeAllBySet(b: Broker, olds: seq<(ClientId, Tx)>, now: int, net: Net)
    requires AreClients(b, olds) && NoEmptyLists(b.handlers)
    ensures ProbeAll(b, olds, now, net).state ==
            b.(connected := Probed(b.connected, IdsIn(olds), now, net),
               handlers := Prune(b.handlers, Unreachable(b.connected, IdsIn(olds), net)))
  {
    if olds == [] {
      assert IdsIn(olds) == {} && Unreachable(b.connected, {}, net) == {};
      forall q | q in b.handlers ensures WithoutAll(b.handlers[q], {}) == b.handlers[q] {
        WithoutNone(b.handlers[q]);
      }
      assert Prune(b.handlers, {}) == b.handlers;
      assert Probed(b.connected, {}, now, net) == b.connected;
    } else {
      var front, last := olds[..|olds| - 1], olds[|olds| - 1];
      ProbeAllBySet(b, front, now, net);
      assert last.0 !in IdsIn(front);
      IdsInAppend(front, last);
      assert olds == front + [last];
      ProbeOneMore(b, IdsIn(front), last.0, now, net);
    }
  }

  lemma IdsInAppend(olds: seq<(ClientId, Tx)>, last: (ClientId, Tx))
    ensures IdsIn(olds + [last]) == IdsIn(olds) + {last.0}
  {
    assert (olds + [last])[|olds|] == last;
    forall i | 0 <= i < |olds| ensures olds[i].0 in IdsIn(olds + [last]) {
      assert (olds + [last])[i] == olds[i];
    }
  }

  lemma EnabledTickClients(limits: Limits, s: System, step: Step)
    requires step.Tick? && Enabled(limits, s, step)
    ensures AreClients(s.broker, step.olds)
    ensures IdsIn(step.olds) == set c | c in s.broker.connected
            && s.now - s.broker.connected[c].lastSeen > limits.expiration
  {
    forall i | 0 <= i < |step.olds|
      ensures step.olds[i].0 in s.broker.connected && step.olds[i].1 == s.broker.connected[step.olds[i].0].tx
    {
      assert step.olds[i] in step.olds;
      assert step.olds[i] in OldClients(s.broker, s.now, limits.expiration);
    }
    forall c | c in s.broker.connected
      ensures c in IdsIn(step.olds) <==> s.now - s.broker.connected[c].lastSeen > limits.expiration
    {
      EnabledTickProbes(limits, s, step, c);
      assert c in IdsIn(step.olds) <==> Mentions(step.olds, c);
    }
  }

  // ---------- what a tick says, whatever the order ----------

  function Flat<T>(f: T -> seq<Event>, xs: seq<T>): seq<Event> {
    if xs == [] then [] else Flat(f, xs[..|xs| - 1]) + f(xs[|xs| - 1])
  }

  lemma {:induction false} FlatAppend<T>(f: T -> seq<Event>, xs: seq<T>, ys: seq<T>)
    ensures Flat(f, xs + ys) == Flat(f, xs) + Flat(f, ys)
  {
    if ys == [] {
      assert xs + ys == xs;
    } else {
      assert (xs + ys)[..|xs + ys| - 1] == xs + ys[..|ys| - 1];
      FlatAppend(f, xs, ys[..|ys| - 1]);
    }
  }

  /** Taking one element out takes its events out. */
  lemma FlatWithout<T>(f: T -> seq<Event>, xs: seq<T>, i: nat)
    requires i < |xs|
    ensures multiset(Flat(f, xs)) == multiset(Flat(f, xs[..i] + xs[i + 1..])) + multiset(f(xs[i]))
  {
    var one := [xs[i]];
    assert xs == xs[..i] + (one + xs[i + 1..]);
    FlatAppend(f, xs[..i], one + xs[i + 1..]);
    FlatAppend(f, one, xs[i + 1..]);
    FlatAppend(f, xs[..i], xs[i + 1..]);
    assert one[..0] == [];
    assert Flat(f, one) == f(xs[i]);
  }

  lemma {:induction false} FlatPermutes<T>(f: T -> seq<Event>, xs: seq<T>, ys: seq<T>)
    requires multiset(xs) == multiset(ys)
    ensures multiset(Flat(f, xs)) == multiset(Flat(f, ys))
    decreases |xs|
  {
    if xs == [] {
      assert |multiset(ys)| == 0;
    } else {
      var front, last := xs[..|xs| - 1], xs[|xs| - 1];
      assert xs == front + [last];
      assert last in multiset(ys);
      var j :| 0 <= j < |ys| && ys[j] == last;
      assert ys == ys[..j] + [last] + ys[j + 1..];
      var one := multiset([last]);
      assert multiset(xs) == multiset(front) + one;
      assert multiset(ys) == multiset(ys[..j] + ys[j + 1..]) + one;
      assert multiset(front) == multiset(xs) - one == multiset(ys) - one;
      assert multiset(front) == multiset(ys[..j] + ys[j + 1..]);
      FlatPermutes(f, front, ys[..j] + ys[j + 1..]);
      FlatWithout(f, ys, j);
    }
  }

  function ProbeEvents(stale: (ClientId, Tx), net: Net): seq<Event> {
    var ok := net(stale.0, stale.1, ServerHeartbeat);
    [Sent(stale.0, stale.1, ServerHeartbeat, ok)] + if ok then [] else [Disconnected(stale.0)]
  }

  lemma {:induction false} ProbesFlat(b: Broker, olds: seq<(ClientId, Tx)>, now: int, net: Net, f: ((ClientId,
                                      Tx)) -> seq<Event>)
    requires forall x :: f(x) == ProbeEvents(x, net)
    ensures ProbeAll(b, olds, now, net).out == Flat(f, olds)
  {
    if olds != [] {
      ProbesFlat(b, olds[..|olds| - 1], now, net, f);
    }
  }

  function ExpiryEvents(b: Broker, o: Ongoing, net: Net): seq<Event> {
    Notify(b, o.requester, QueryRequestedFailed(o.requestId, o.queryId, QueryTimedOut), net)
        + [TimedOut(o.requestId, o.queryId)]
  }

  lemma {:induction false} ExpiryFlat(b: Broker, expired: seq<Ongoing>, net: Net, f: Ongoing -> seq<Event>)
    requires ListsOngoing(b.ongoing, expired) && forall o :: f(o) == ExpiryEvents(b, o, net)
    ensures ExpireAll(b, expired, net).out == Flat(f, expired)
  {
    if expired != [] {
      var front, last := expired[..|expired| - 1], expired[|expired| - 1];
      ExpiryFlat(b, front, net, f);
      ExpireAllRemoves(b, front, net);
      ExpireAllKeepsClients(b, front, net);
      assert last.requestId !in IdsOf(front);
    }
  }

  /** Two ticks from the same state with the same send results end in the same state and say the same, whatever order
      the clients and the requests are visited in. */
  lemma TickOrderIsIrrelevant(limits: Limits, s: System, one: Step, two: Step)
    requires one.Tick? && two.Tick? && one.net == two.net && Enabled(limits, s, one) && Enabled(limits, s, two)
    requires NoEmptyLists(s.broker.handlers) && FiledUnderOwnId(s.broker.ongoing)
    ensures Apply(s, one).next == Apply(s, two).next
    ensures multiset(Apply(s, one).out) == multiset(Apply(s, two).out)
  {
    EnabledTickClients(limits, s, one);
    EnabledTickClients(limits, s, two);
    ProbeAllBySet(s.broker, one.olds, s.now, one.net);
    ProbeAllBySet(s.broker, two.olds, s.now, two.net);
    TickDropsExpired(limits, s, one);
    TickDropsExpired(limits, s, two);
    ExpireAllKeepsClients(ProbeAll(s.broker, one.olds, s.now, one.net).state, one.expired, one.net);
    ExpireAllKeepsClients(ProbeAll(s.broker, two.olds, s.now, two.net).state, two.expired, two.net);
    TickSaysTheSame(limits, s, one, two);
  }

  lemma TickSaysTheSame(limits: Limits, s: System, one: Step, two: Step)
    requires one.Tick? && two.Tick? && one.net == two.net && Enabled(limits, s, one) && Enabled(limits, s, two)
    requires FiledUnderOwnId(s.broker.ongoing)
    requires ProbeAll(s.broker, one.olds, s.now, one.net).state == ProbeAll(s.broker, two.olds, s.now, one.net).state
    ensures multiset(Apply(s, one).out) == multiset(Apply(s, two).out)
  {
    var net, b := one.net, ProbeAll(s.broker, one.olds, s.now, one.net).state;
    var f, g := (x: (ClientId, Tx)) => ProbeEvents(x, net), (o: Ongoing) => ExpiryEvents(b, o, net);
    ProbesFlat(s.broker, one.olds, s.now, net, f);
    ProbesFlat(s.broker, two.olds, s.now, net, f);
    ListingsPermute(one.olds, two.olds, OldClients(s.broker, s.now, limits.expiration));
    FlatPermutes(f, one.olds, two.olds);
    ProbeAllKeepsRequests(s.broker, one.olds, s.now, net);
    EnabledTickLists(limits, s, one);
    EnabledTickLists(limits, s, two);
    ExpiryFlat(b, one.expired, net, g);
    ExpiryFlat(b, two.expired, net, g);
    ListingsPermute(one.expired, two.expired, ExpiredSet(s.broker.ongoing, s.now, limits.timeout));
    FlatPermutes(g, one.expired, two.expired);
  }
}

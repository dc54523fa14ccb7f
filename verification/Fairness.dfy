/** Fair dispatch over whole runs (src/domain/mod.rs:84-107, src/domain/state.rs:230-263). */
module Fairness {
  import opened Ids
  import opened Messages
  import opened RoundRobin
  import opened QueryHandlers
  import opened StateMachine
  import opened Registry
  import opened Requests

  /** The clients that were sent a request for `q`, in order, whether or not the send worked. */
  function Asks(q: QueryId, out: seq<Event>): seq<ClientId> {
    if out == [] then []
    else
      var e := out[|out| - 1];
      Asks(q, out[..|out| - 1]) + if e.Sent? && e.msg.QueryRequested? && e.msg.queryId == q then [e.to] else []
  }

  lemma {:induction false} AsksAppend(q: QueryId, out: seq<Event>, more: seq<Event>)
    ensures Asks(q, out + more) == Asks(q, out) + Asks(q, more)
  {
    if more == [] {
      assert out + more == out;
    } else {
      assert (out + more)[..|out + more| - 1] == out + more[..|more| - 1];
      AsksAppend(q, out, more[..|more| - 1]);
    }
  }

  lemma {:induction false} AsksNobodyFor(q: QueryId, out: seq<Event>)
    requires forall e :: e in out && e.Sent? && e.msg.QueryRequested? ==> e.msg.queryId != q
    ensures Asks(q, out) == []
  {
    if out != [] {
      AsksNobodyFor(q, out[..|out| - 1]);
    }
  }

  /** The step makes a selection: a request that is not a duplicate, for a query somebody handles. */
  predicate Selects(b: Broker, step: Step) {
    step.Receive? && step.m.QueryRequest? && step.m.requestId !in b.ongoing && Lookup(b.handlers, step.m.queryId) != []
  }

  /** The selection of another query leaves the turn of `handlers` where it is. */
  predicate Harmless(b: Broker, q: QueryId, handlers: seq<ClientId>)
    requires handlers != []
  {
    SameTurn(Next(b.cursor, Lookup(b.handlers, q)), b.cursor, Sort(handlers))
  }

  /** Selections for `q` are from the same handlers in any list order, and those for other queries are harmless.
      Everything else may happen in between. */
  ghost predicate Undisturbed(s: System, steps: seq<Step>, q: QueryId, handlers: seq<ClientId>)
    requires handlers != []
    decreases |steps|
  {
    steps == [] ||
    var front, last := steps[..|steps| - 1], steps[|steps| - 1];
    var b := Exec(s, front).next.broker;
    && Undisturbed(s, front, q, handlers)
    && (Selects(b, last) ==>
          if last.m.queryId == q then multiset(Lookup(b.handlers, q)) == multiset(handlers)
          else Harmless(b, last.m.queryId, handlers))
  }

  lemma AsksOf(q: QueryId, first: Event, rest: seq<Event>)
    requires first.Sent? && first.msg.QueryRequested? && first.msg.queryId == q
    requires |rest| <= 1 && forall e :: e in rest ==> !(e.Sent? && e.msg.QueryRequested?)
    ensures Asks(q, [first] + rest) == [first.to]
  {
    AsksAppend(q, [first], rest);
    AsksNobodyFor(q, rest);
    assert [first][..0] == [];
  }

  /** A selecting request asks the selected client and moves the cursor to it. */
  lemma SelectingRequest(b: Broker, regs: Registry, m: ClientMessage, now: int, net: Net)
    requires Reflects(b, regs) && m.QueryRequest? && m.requestId !in b.ongoing && Lookup(b.handlers, m.queryId) != []
    ensures var next := Next(b.cursor, Lookup(b.handlers, m.queryId));
            && next.Some?
            && Asks(m.queryId, Request(b, m, now, net).out) == [next.value]
            && Request(b, m, now, net).state.cursor == next
  {
    DeadBranches(b, regs, m.queryId);
    RequestFrame(b, m, now, net);
    var out := Request(b, m, now, net).out;
    AsksOf(m.queryId, out[0], out[1..]);
    assert out == [out[0]] + out[1..];
  }

  lemma SelectingStep(s: System, regs: Registry, step: Step)
    requires Reflects(s.broker, regs) && Selects(s.broker, step)
    ensures var next := Next(s.broker.cursor, Lookup(s.broker.handlers, step.m.queryId));
            && next.Some?
            && Asks(step.m.queryId, Apply(s, step).out) == [next.value]
            && Apply(s, step).next.broker.cursor == next
  {
    TouchReflects(s.broker, regs, step.m.Source(), s.now);
    SelectingRequest(Touch(s.broker, step.m.Source(), s.now), regs, step.m, s.now, step.net);
  }

  /** Any other step leaves the cursor alone and asks nobody. */
  lemma OtherStep(s: System, regs: Registry, step: Step, q: QueryId)
    requires Reflects(s.broker, regs) && !Selects(s.broker, step)
    ensures Asks(q, Apply(s, step).out) == [] && Apply(s, step).next.broker.cursor == s.broker.cursor
  {
    if step.Receive? {
      OtherMessage(Touch(s.broker, step.m.Source(), s.now), step.m, s.now, step.net, step.st);
    } else if step.Tick? {
      TickAsksNothing(s.broker, step.olds, step.expired, s.now, step.net);
      ProbeAllKeepsRequests(s.broker, step.olds, s.now, step.net);
      ExpireAllKeepsClients(ProbeAll(s.broker, step.olds, s.now, step.net).state, step.expired, step.net);
    } else if step.Broadcast? && step.job < |s.broker.jobs| {
      BroadcastSays(s.broker, step.order, SourceEventBroadcast(s.broker.jobs[step.job]), step.net);
    }
    AsksNobodyFor(q, Apply(s, step).out);
  }

  lemma OtherMessage(b: Broker, m: ClientMessage, now: int, net: Net, st: EventStore.Storage)
    requires m.QueryRequest? ==> m.requestId in b.ongoing || Lookup(b.handlers, m.queryId) == []
    ensures var r := Dispatch(b, m, now, net, st);
            r.state.cursor == b.cursor && forall e :: e in r.out && e.Sent? ==> !e.msg.QueryRequested?
  {
    if !m.QueryRequest? {
      OthersAskNobody(b, m, now, net, st);
    }
  }

  /** `asks` are the first picks from `start`, and it is the turn of the next one. */
  ghost predicate ArePicks(start: Option<ClientId>, ring: seq<ClientId>, asks: seq<ClientId>, cursor: Option<ClientId>)
    requires ring != []
  {
    asks == Picks(start, ring, |asks|) && SameTurn(cursor, CursorAfter(start, ring, |asks|), ring)
  }

  lemma NextPick(start: Option<ClientId>, ring: seq<ClientId>, k: nat, cursor: Option<ClientId>)
    requires ring != [] && Distinct(ring) && SameTurn(cursor, CursorAfter(start, ring, k), ring)
    ensures ring[NextIndex(cursor, ring)] == PickAt(start, ring, k)
    ensures Picks(start, ring, k + 1) == Picks(start, ring, k) + [PickAt(start, ring, k)]
    ensures CursorAfter(start, ring, k + 1) == Some(PickAt(start, ring, k))
  {
    SameTurnExactly(cursor, CursorAfter(start, ring, k), ring);
  }

  lemma OneMorePick(start: Option<ClientId>, handlers: seq<ClientId>, asks: seq<ClientId>, cursor: Option<ClientId>,
                    list: seq<ClientId>)
    requires handlers != [] && Distinct(handlers) && multiset(list) == multiset(handlers) && list != []
    requires ArePicks(start, Sort(handlers), asks, cursor)
    ensures ArePicks(start, Sort(handlers), asks + [Next(cursor, list).value], Next(cursor, list))
  {
    SortForgetsOrder(list, handlers);
    SortKeepsDistinct(handlers);
    NextPick(start, Sort(handlers), |asks|, cursor);
  }

  /** A selection for another query asks nobody for `q`. */
  lemma ForeignStep(s: System, regs: Registry, step: Step, q: QueryId)
    requires Reflects(s.broker, regs) && Selects(s.broker, step) && step.m.queryId != q
    ensures Asks(q, Apply(s, step).out) == []
  {
    var out := Apply(s, step).out;
    forall e | e in out && e.Sent? && e.msg.QueryRequested? ensures e.msg.queryId != q {
      RequestSays(Touch(s.broker, step.m.Source(), s.now), step.m, s.now, step.net, e);
    }
    AsksNobodyFor(q, out);
  }

  /** In an undisturbed run the asked clients are successive picks from the starting cursor. */
  lemma {:induction false} AsksArePicks(s: System, regs: Registry, steps: seq<Step>, q: QueryId,
                                        handlers: seq<ClientId>)
    requires Reflects(s.broker, regs) && handlers != [] && Distinct(handlers) && Undisturbed(s, steps, q, handlers)
    ensures ArePicks(s.broker.cursor, Sort(handlers), Asks(q, Exec(s, steps).out), Exec(s, steps).next.broker.cursor)
    decreases |steps|
  {
    if steps == [] {
      assert Picks(s.broker.cursor, Sort(handlers), 0) == [];
    } else {
      var front, last := steps[..|steps| - 1], steps[|steps| - 1];
      AsksArePicks(s, regs, front, q, handlers);
      IndexRefinesRegistrations(s, regs, front);
      var before := Exec(s, front);
      AsksAppend(q, before.out, Apply(before.next, last).out);
      if Selects(before.next.broker, last) {
        SelectingStep(before.next, Replay(regs, before.out), last);
        if last.m.queryId == q {
          OneMorePick(s.broker.cursor, handlers, Asks(q, before.out), before.next.broker.cursor,
              Lookup(before.next.broker.handlers, q));
        } else {
          ForeignStep(before.next, Replay(regs, before.out), last, q);
          assert Asks(q, before.out) + [] == Asks(q, before.out);
        }
      } else {
        OtherStep(before.next, Replay(regs, before.out), last, q);
        assert Asks(q, before.out) + [] == Asks(q, before.out);
      }
    }
  }

  /** The `n` requests from number `w` on. */
  ghost function Window(asks: seq<ClientId>, w: nat, n: nat): seq<ClientId>
    requires w + n <= |asks|
  {
    asks[w..w + n]
  }

  /** Every window of as many requests as there are handlers goes to each of them once,
      and no handler is ever more than one request ahead of another. */
  ghost predicate Fair(asks: seq<ClientId>, handlers: seq<ClientId>) {
    && (forall w: nat :: w + |handlers| <= |asks| ==> multiset(Window(asks, w, |handlers|)) == multiset(handlers))
    && (forall c, d :: c in handlers && d in handlers ==> multiset(asks)[c] <= multiset(asks)[d] + 1)
  }

  lemma PicksAreFair(start: Option<ClientId>, ring: seq<ClientId>, asks: seq<ClientId>)
    requires ring != [] && Distinct(ring) && asks == Picks(start, ring, |asks|)
    ensures Fair(asks, ring)
  {
    forall w: nat | w + |ring| <= |asks| ensures multiset(Window(asks, w, |ring|)) == multiset(ring) {
      EveryWindowIsFair(start, ring, |asks|, w);
    }
    forall c, d | c in ring && d in ring ensures multiset(asks)[c] <= multiset(asks)[d] + 1 {
      CountsBalanced(start, ring, |asks|, c, d);
    }
  }

  lemma FairPermuted(asks: seq<ClientId>, xs: seq<ClientId>, ys: seq<ClientId>)
    requires multiset(xs) == multiset(ys) && Fair(asks, xs)
    ensures Fair(asks, ys)
  {
    assert |xs| == |multiset(xs)| && |ys| == |multiset(ys)|;
    forall c | c in ys ensures c in xs {
      assert c in multiset(xs);
    }
  }

  /** Fair dispatch: in any run in which `q` is answered by one repeat-free set of handlers and selections for other
      queries are harmless, its requests go round the handlers fairly, whatever the cursor and the list order. */
  lemma {:induction false} FairDispatch(s: System, regs: Registry, steps: seq<Step>, q: QueryId,
                                        handlers: seq<ClientId>)
    requires Reflects(s.broker, regs) && handlers != [] && Distinct(handlers) && Undisturbed(s, steps, q, handlers)
    ensures Fair(Asks(q, Exec(s, steps).out), handlers)
  {
    AsksArePicks(s, regs, steps, q, handlers);
    SortSorts(handlers);
    SortKeepsDistinct(handlers);
    PicksAreFair(s.broker.cursor, Sort(handlers), Asks(q, Exec(s, steps).out));
    FairPermuted(Asks(q, Exec(s, steps).out), Sort(handlers), handlers);
  }
}

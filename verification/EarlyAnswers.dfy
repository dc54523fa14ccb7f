/** Answers that arrive before their request is recorded, when lock sections interleave
    (src/domain/state.rs:277-298, src/domain/state.rs:344-430). */
module EarlyAnswers {
  import opened Ids
  import opened Messages
  import opened QueryHandlers
  import opened EventStore
  import opened StateMachine
  import opened Requests
  import opened LockSections
  import opened Interleavings

  /** The requests whose answer is awaited after `e`: those a responder was sent, until they are answered or timed
      out. */
  function Await(awaited: set<RequestId>, e: Event): set<RequestId> {
    match e
    case Sent(_, _, msg, ok) =>
      if ok && msg.QueryRequested? then awaited + {msg.requestId}
      else if ok && Closes(msg) then awaited - {msg.requestId}
      else awaited
    case TimedOut(r, _) => awaited - {r}
    case _ => awaited
  }

  function Awaited(awaited: set<RequestId>, out: seq<Event>): set<RequestId> {
    if out == [] then awaited else Await(Awaited(awaited, out[..|out| - 1]), out[|out| - 1])
  }

  lemma {:induction false} AwaitedAppend(awaited: set<RequestId>, out: seq<Event>, more: seq<Event>)
    ensures Awaited(awaited, out + more) == Awaited(Awaited(awaited, out), more)
  {
    if more == [] {
      assert out + more == out;
    } else {
      assert (out + more)[..|out + more| - 1] == out + more[..|more| - 1];
      AwaitedAppend(awaited, out, more[..|more| - 1]);
    }
  }

  lemma AwaitedOne(awaited: set<RequestId>, e: Event)
    ensures Awaited(awaited, [e]) == Await(awaited, e)
  {
    assert [e][..0] == [];
  }

  lemma {:induction false} AwaitedUnrelated(awaited: set<RequestId>, out: seq<Event>)
    requires Unrelated(out)
    ensures Awaited(awaited, out) == awaited
  {
    if out != [] {
      AwaitedUnrelated(awaited, out[..|out| - 1]);
    }
  }

  /** A task has sent the request `r` to its responder and not recorded it. */
  ghost predicate Unrecorded(p: Pool, r: RequestId) {
    exists j :: 0 <= j < |p.tasks| && WellFormed(p.tasks[j]) && p.tasks[j].Asked? && p.tasks[j].m.requestId == r
  }

  /** The awaited requests are the open ones and those that are not recorded yet. */
  ghost predicate AwaitsRight(p: Pool, awaited: set<RequestId>) {
    forall r :: r in awaited <==> r in Tracked(p) || Unrecorded(p, r)
  }

  /** What is not recorded yet is not open. */
  lemma UnrecordedIsNew(p: Pool, r: RequestId)
    requires Orderly(p) && Unrecorded(p, r)
    ensures r !in p.shared.ongoing
  {
    var j :| 0 <= j < |p.tasks| && WellFormed(p.tasks[j]) && p.tasks[j].Asked? && p.tasks[j].m.requestId == r;
    assert OrderlyTask(p, j);
  }

  lemma UnrecordedAfter(p: Pool, move: Move, r: RequestId)
    requires Orderly(p) && move.Run? && move.i < |p.tasks|
    ensures var p', t := MakeMove(p, move).pool, p.tasks[move.i];
            && WellFormed(t) && WellFormed(p'.tasks[move.i])
            && (Unrecorded(p', r) <==> (p'.tasks[move.i].Asked? && p'.tasks[move.i].m.requestId == r)
                                       || (Unrecorded(p, r) && !(t.Asked? && t.m.requestId == r)))
  {
    var p', i, t := MakeMove(p, move).pool, move.i, p.tasks[move.i];
    assert OrderlyTask(p, i);
    SectionOnRequests(p.shared, t, move.now, move.net, move.st);
    if Unrecorded(p, r) {
      var j :| 0 <= j < |p.tasks| && WellFormed(p.tasks[j]) && p.tasks[j].Asked? && p.tasks[j].m.requestId == r;
      assert j != i ==> p'.tasks[j] == p.tasks[j];
    }
    if Unrecorded(p', r) {
      var j :| 0 <= j < |p'.tasks| && WellFormed(p'.tasks[j]) && p'.tasks[j].Asked? && p'.tasks[j].m.requestId == r;
      assert j != i ==> p'.tasks[j] == p.tasks[j];
      assert j != i ==> AskedElsewhere(p, i, r);
    }
  }

  /** What a section that is about requests does to the awaited ones. */
  lemma SectionAwaits(b: Broker, t: Task, now: int, net: Net, st: Storage, awaited: set<RequestId>)
    requires WellFormed(t) && (t.Noticed? ==> t.r in b.ongoing)
             && (t.Expiring? || t.Found? ==> t.request.requestId == Closing(t).value)
    ensures var s := Section(b, t, now, net, st);
            Awaited(awaited, s.out) == (if s.task.Asked? then awaited + {t.m.requestId}
                                        else if s.task.Delivered? then awaited - {Closing(t).value}
                                        else if t.Noticed? then awaited - {t.r} else awaited)
    ensures var s := Section(b, t, now, net, st);
            (s.task.Asked? ==> t.Chose? && s.task.m == t.m)
                && (s.task.Delivered? ==> t.Found? && s.task.r == t.m.requestId)
  {
    var s := Section(b, t, now, net, st);
    SectionEvents(b, t, now, net, st);
    if t.Chose? || t.Asked? || t.Found? || t.Expiring? || t.Noticed? {
      if |s.out| == 1 {
        AwaitedOne(awaited, s.out[0]);
        assert s.out == [s.out[0]];
      } else if |s.out| == 2 {
        AwaitedOne(awaited, s.out[0]);
        AwaitedOne(Await(awaited, s.out[0]), s.out[1]);
        AwaitedAppend(awaited, [s.out[0]], [s.out[1]]);
        assert s.out == [s.out[0]] + [s.out[1]];
      }
    } else {
      AwaitedUnrelated(awaited, s.out);
    }
  }

  lemma RunAwaits(p: Pool, move: Move, awaited: set<RequestId>)
    requires Orderly(p) && AwaitsRight(p, awaited) && move.Run? && move.i < |p.tasks|
    ensures AwaitsRight(MakeMove(p, move).pool, Awaited(awaited, MakeMove(p, move).out))
  {
    var p', i, t := MakeMove(p, move).pool, move.i, p.tasks[move.i];
    assert OrderlyTask(p, i);
    var s := Section(p.shared, t, move.now, move.net, move.st);
    SectionAwaits(p.shared, t, move.now, move.net, move.st, awaited);
    SectionOnRequests(p.shared, t, move.now, move.net, move.st);
    TrackedAfter(p, p', i, s.task);
    forall r ensures r in Awaited(awaited, s.out) <==> r in Tracked(p') || Unrecorded(p', r) {
      UnrecordedAfter(p, move, r);
      if Unrecorded(p, r) {
        UnrecordedIsNew(p, r);
      }
    }
  }

  lemma MoveAwaits(p: Pool, move: Move, awaited: set<RequestId>)
    requires Orderly(p) && AwaitsRight(p, awaited)
    ensures AwaitsRight(MakeMove(p, move).pool, Awaited(awaited, MakeMove(p, move).out))
  {
    var p' := MakeMove(p, move).pool;
    if move.Run? && move.i < |p.tasks| {
      RunAwaits(p, move, awaited);
    } else {
      if move.RunJob? && move.job < |p.shared.jobs| {
        BroadcastSays(p.shared, move.order, SourceEventBroadcast(p.shared.jobs[move.job]), move.net);
        AwaitedUnrelated(awaited, MakeMove(p, move).out);
      }
      forall r
        ensures (Unrecorded(p', r) <==> Unrecorded(p, r)) && (Delivered(r) in p'.tasks <==> Delivered(r) in p.tasks)
      {
        OtherMovesKeepTasks(p, move, r);
      }
    }
  }

  lemma OtherMovesKeepTasks(p: Pool, move: Move, r: RequestId)
    requires move.Run? ==> move.i >= |p.tasks|
    ensures var p' := MakeMove(p, move).pool;
            (Unrecorded(p', r) <==> Unrecorded(p, r)) && (Delivered(r) in p'.tasks <==> Delivered(r) in p.tasks)
  {
    var p' := MakeMove(p, move).pool;
    assert forall k :: 0 <= k < |p.tasks| ==> p'.tasks[k] == p.tasks[k];
    if Unrecorded(p, r) {
      var j :| 0 <= j < |p.tasks| && WellFormed(p.tasks[j]) && p.tasks[j].Asked? && p.tasks[j].m.requestId == r;
      assert p'.tasks[j].Asked?;
    }
    if Delivered(r) in p.tasks {
      var j :| 0 <= j < |p.tasks| && p.tasks[j] == Delivered(r);
      assert p'.tasks[j] == Delivered(r);
    }
  }

  lemma {:induction false} PlayAwaits(b: Broker, moves: seq<Move>)
    requires SectionInvariant(Pool(b, [])) && b.ongoing == map[] && NeverBreaks(OneAtATime, Pool(b, []), moves)
    ensures AwaitsRight(Play(Pool(b, []), moves).pool, Awaited({}, Play(Pool(b, []), moves).out))
    decreases |moves|
  {
    if moves != [] {
      var p, front, last := Pool(b, []), moves[..|moves| - 1], moves[|moves| - 1];
      PlayAwaits(b, front);
      KeptExactly(OneAtATime, p, front);
      HoldsAtEnd(OneAtATime, p, front);
      var before := Play(p, front);
      MoveAwaits(before.pool, last, Awaited({}, before.out));
      AwaitedAppend({}, before.out, MakeMove(before.pool, last).out);
    }
  }

  /** In every interleaving without races, an answer to a request that its responder was sent, and that is neither
      answered nor timed out, finds the request open exactly when the request is recorded already; taken earlier, it
      is dropped. */
  lemma AwaitedAnswerIsTakenUnlessEarly(b: Broker, moves: seq<Move>, i: nat, now: int, net: Net, st: Storage)
    requires SectionInvariant(Pool(b, [])) && b.ongoing == map[] && NeverBreaks(OneAtATime, Pool(b, []), moves)
    requires i < |Play(Pool(b, []), moves).pool.tasks| && Play(Pool(b, []), moves).pool.tasks[i].Touched?
    requires var m := Play(Pool(b, []), moves).pool.tasks[i].m;
             (m.QueryResponse? || m.QueryHandlingFailed?) && m.requestId in Awaited({}, Play(Pool(b, []), moves).out)
    ensures var q := Play(Pool(b, []), moves).pool;
            var m, n := q.tasks[i].m, MakeMove(q, Run(i, now, net, st));
            if Unrecorded(q, m.requestId) then n.pool.tasks[i].Done? && n.out == [] && n.pool.shared == q.shared
            else m.requestId in q.shared.ongoing && n.pool.tasks[i] == Found(m, q.shared.ongoing[m.requestId])
  {
    PlayAwaits(b, moves);
    KeptExactly(OneAtATime, Pool(b, []), moves);
    HoldsAtEnd(OneAtATime, Pool(b, []), moves);
    var q := Play(Pool(b, []), moves).pool;
    assert OrderlyTask(q, i);
    if Unrecorded(q, q.tasks[i].m.requestId) {
      UnrecordedIsNew(q, q.tasks[i].m.requestId);
    }
  }

  /** An answer that found its request is passed to the requester exactly when it can be reached. */
  lemma FoundAnswerIsPassedOn(p: Pool, i: nat, now: int, net: Net, st: Storage)
    requires Orderly(p) && i < |p.tasks| && p.tasks[i].Found?
    ensures var m, n := p.tasks[i].m, MakeMove(p, Run(i, now, net, st));
            && (m.QueryResponse? || m.QueryHandlingFailed?) && m.requestId in p.shared.ongoing
            && var o := p.shared.ongoing[m.requestId];
            if Reaches(p.shared, o.requester, AnswerOf(m, o), net)
            then n.out == [Sent(o.requester, p.shared.connected[o.requester].tx, AnswerOf(m, o), true)]
            else n.pool.tasks[i].Done? && forall e :: e in n.out ==> e.Sent? && !e.ok
  {
    assert OrderlyTask(p, i);
  }
}

/** Every race between lock sections can do harm by itself (src/domain/state.rs:194-485). */
module Races {
  import opened Ids
  import opened Messages
  import opened QueryHandlers
  import opened EventStore
  import opened StateMachine
  import opened Requests
  import opened LockSections
  import opened Interleavings
  import opened Plays

  lemma {:induction false} TrackUntracked(open: OngoingRequests, out: seq<Event>)
    requires Untracked(out)
    ensures TrackAll(open, out) == open
  {
    if out != [] {
      TrackUntracked(open, out[..|out| - 1]);
    }
  }

  /** What a gentle continuation of task `i` does: events that leave the open requests alone, then `last`;
      the other tasks wait. */
  ghost predicate LeadsTo(p: Pool, i: nat, moves: seq<Move>, quiet: seq<Event>, last: Event) {
    var r := Play(p, moves);
    && Untracked(quiet) && r.out == quiet + [last] && Waits(p, i, r.pool) && Gentle(p, moves, {i}, |p.tasks|)
  }

  ghost predicate Waits(p: Pool, i: nat, p': Pool) {
    |p'.tasks| >= |p.tasks| && forall j :: 0 <= j < |p.tasks| && j != i ==> p'.tasks[j] == p.tasks[j]
  }

  /** Prefixing a continuation with moves that leave the open requests and the other tasks alone. */
  lemma LeadsToLater(p: Pool, i: nat, moves: seq<Move>, rest: seq<Move>, quiet: seq<Event>, last: Event)
    returns (quiet': seq<Event>)
    requires Untracked(Play(p, moves).out) && Waits(p, i, Play(p, moves).pool) && Gentle(p, moves, {i}, |p.tasks|)
    requires LeadsTo(Play(p, moves).pool, i, rest, quiet, last)
    ensures LeadsTo(p, i, moves + rest, quiet', last)
  {
    var p1 := Play(p, moves).pool;
    PlayAppend(p, moves, rest);
    GentleWiden(p1, rest, {i}, |p1.tasks|, {i}, |p.tasks|);
    GentleAppend(p, moves, rest, {i}, |p.tasks|);
    quiet' := Play(p, moves).out + quiet;
    Regroup(Play(p, moves).out, quiet, [last]);
  }

  lemma LeadsToNow(p: Pool, i: nat, last: Event)
    requires i < |p.tasks| && GentleMove(p, Go(i), {i}, |p.tasks|) && MakeMove(p, Go(i)).out == [last]
    requires Waits(p, i, MakeMove(p, Go(i)).pool)
    ensures LeadsTo(p, i, [Go(i)], [], last)
  {
    GentleOne(p, Go(i), {i}, |p.tasks|);
    assert [] + [last] == [last];
  }

  /** With handlers for its query, or its responder connected, a request gets one section further. */
  lemma AskGoesOn(p: Pool, i: nat)
    requires i < |p.tasks| && WellFormed(p.tasks[i]) && Asking(p.tasks[i]).Some? && !p.tasks[i].Asked?
    requires p.tasks[i].Unique? ==> Lookup(p.shared.handlers, p.tasks[i].m.queryId) != []
    requires p.tasks[i].Chose? ==> p.tasks[i].responder in p.shared.connected
    ensures var n := MakeMove(p, Go(i));
            && Untracked(n.out) && |n.pool.tasks| == |p.tasks|
            && (forall j :: 0 <= j < |p.tasks| && j != i ==> n.pool.tasks[j] == p.tasks[j])
            && WellFormed(n.pool.tasks[i]) && Asking(n.pool.tasks[i]) == Asking(p.tasks[i])
            && Remaining(n.pool.tasks[i]) < Remaining(p.tasks[i])
  {
    SelectReturnsMember(p.shared.handlers, p.shared.cursor, p.tasks[i].m.queryId);
  }

  /** A request that found its id unused can always get one section further, because its responder can come back. */
  lemma OneSectionFurther(p: Pool, i: nat, r: RequestId) returns (moves: seq<Move>)
    requires i < |p.tasks| && WellFormed(p.tasks[i]) && Asking(p.tasks[i]) == Some(r) && !p.tasks[i].Asked?
    ensures var q := Play(p, moves);
            && Untracked(q.out) && Waits(p, i, q.pool) && Gentle(p, moves, {i}, |p.tasks|)
            && WellFormed(q.pool.tasks[i]) && Asking(q.pool.tasks[i]) == Some(r) && q.pool.tasks[i].m == p.tasks[i].m
            && Remaining(q.pool.tasks[i]) < Remaining(p.tasks[i])
  {
    var t := p.tasks[i];
    var c := if t.Chose? then t.responder else t.m.requester;
    var before := Reconnect(p, c, [t.m.queryId]);
    ComeBackConnects(p.shared, c, [t.m.queryId]);
    ComeBackServes(p.shared, c, [t.m.queryId], t.m.queryId);
    var p1 := Play(p, before).pool;
    AskGoesOn(p1, i);
    moves := before + [Go(i)];
    PlayAppend(p, before, [Go(i)]);
    GentleOne(p1, Go(i), {i}, |p.tasks|);
    GentleWiden(p, before, {}, |p.tasks|, {i}, |p.tasks|);
    GentleAppend(p, before, [Go(i)], {i}, |p.tasks|);
  }

  /** So it can always get dispatched. */
  lemma DispatchSoon(p: Pool, i: nat, r: RequestId) returns (moves: seq<Move>, quiet: seq<Event>, o: Ongoing)
    requires i < |p.tasks| && WellFormed(p.tasks[i]) && Asking(p.tasks[i]) == Some(r)
    ensures LeadsTo(p, i, moves, quiet, Dispatched(o)) && o.requestId == r
    ensures var m := p.tasks[i].m; o.queryId == m.queryId && o.parameters == m.parameters && o.requester == m.requester
    decreases Remaining(p.tasks[i])
  {
    var t := p.tasks[i];
    if t.Asked? {
      o := Ongoing(r, t.m.queryId, t.m.parameters, t.m.requester, t.responder, 0);
      moves, quiet := [Go(i)], [];
      LeadsToNow(p, i, Dispatched(o));
    } else {
      var before := OneSectionFurther(p, i, r);
      var rest, quiet1;
      rest, quiet1, o := DispatchSoon(Play(p, before).pool, i, r);
      quiet := LeadsToLater(p, i, before, rest, quiet1, Dispatched(o));
      moves := before + rest;
    }
  }

  /** The event delivers an answer or a timeout notice about `r`. */
  predicate IsAnswer(e: Event, r: RequestId) {
    e.Sent? && e.ok && Answers(e.msg) && e.msg.requestId == r
  }

  /** A task that found its request open can always send its answer or its notice. */
  lemma AnswerSoon(p: Pool, i: nat, r: RequestId) returns (moves: seq<Move>, quiet: seq<Event>, e: Event)
    requires i < |p.tasks| && WellFormed(p.tasks[i]) && Closing(p.tasks[i]) == Some(r)
    requires p.tasks[i].Found? || p.tasks[i].Expiring?
    ensures LeadsTo(p, i, moves, quiet, e) && IsAnswer(e, r) && (p.tasks[i].Found? ==> Closes(e.msg))
  {
    var t := p.tasks[i];
    var before := Reconnect(p, t.request.requester, []);
    ComeBackConnects(p.shared, t.request.requester, []);
    var p1 := Play(p, before).pool;
    e := MakeMove(p1, Go(i)).out[0];
    LeadsToNow(p1, i, e);
    GentleWiden(p, before, {}, |p.tasks|, {i}, |p.tasks|);
    quiet := LeadsToLater(p, i, before, [Go(i)], [], e);
    moves := before + [Go(i)];
  }

  predicate Ends(e: Event, r: RequestId) {
    (e.Sent? && e.ok && Closes(e.msg) && e.msg.requestId == r) || (e.TimedOut? && e.requestId == r)
  }

  /** And it can always be the one that ends the request, if it has not sent its answer yet. */
  lemma EndSoon(p: Pool, i: nat, r: RequestId) returns (moves: seq<Move>, quiet: seq<Event>, e: Event)
    requires i < |p.tasks| && WellFormed(p.tasks[i]) && Closing(p.tasks[i]) == Some(r) && !p.tasks[i].Delivered?
    requires r in p.shared.ongoing
    ensures LeadsTo(p, i, moves, quiet, e) && Ends(e, r) && (p.tasks[i].Found? ==> e.Sent?)
  {
    var t := p.tasks[i];
    if t.Found? {
      moves, quiet, e := AnswerSoon(p, i, r);
    } else if t.Noticed? {
      e := TimedOut(r, p.shared.ongoing[r].queryId);
      moves, quiet := [Go(i)], [];
      LeadsToNow(p, i, e);
    } else {
      GentleOne(p, Go(i), {i}, |p.tasks|);
      var p1 := Play(p, [Go(i)]).pool;
      e := TimedOut(r, p.shared.ongoing[r].queryId);
      LeadsToNow(p1, i, e);
      quiet := LeadsToLater(p, i, [Go(i)], [Go(i)], [], e);
      moves := [Go(i)] + [Go(i)];
    }
  }

  /** Answers delivered to an id. */
  function Deliveries(r: RequestId, out: seq<Event>): nat {
    Tally(Responses, r, out) + Tally(HandlingErrors, r, out)
  }

  lemma QuietTally(quiet: seq<Event>, e: Event, r: RequestId)
    requires Untracked(quiet)
    ensures Tally(Dispatches, r, quiet + [e]) == Bit(Is(Dispatches, r, e))
    ensures Deliveries(r, quiet + [e]) == Bit(Is(Responses, r, e)) + Bit(Is(HandlingErrors, r, e))
    ensures Tally(Timeouts, r, quiet + [e]) == Bit(Is(Timeouts, r, e))
  {
    TallyNone(Dispatches, r, quiet);
    TallyNone(Responses, r, quiet);
    TallyNone(HandlingErrors, r, quiet);
    TallyNone(Timeouts, r, quiet);
    OneMoreTally(Timeouts, quiet, e, r);
    OneMoreTally(Dispatches, quiet, e, r);
    OneMoreTally(Responses, quiet, e, r);
    OneMoreTally(HandlingErrors, quiet, e, r);
  }

  lemma OneMoreTally(k: Kind, quiet: seq<Event>, e: Event, r: RequestId)
    ensures Tally(k, r, quiet + [e]) == Tally(k, r, quiet) + Bit(Is(k, r, e))
  {
    TallyAppend(k, r, quiet, [e]);
    TallyOne(k, r, e);
  }

  lemma TwoTally(quiet1: seq<Event>, e1: Event, quiet2: seq<Event>, e2: Event, r: RequestId)
    requires Untracked(quiet1) && Untracked(quiet2)
    ensures var out := (quiet1 + [e1]) + (quiet2 + [e2]);
            && Tally(Dispatches, r, out) == Bit(Is(Dispatches, r, e1)) + Bit(Is(Dispatches, r, e2))
            && Deliveries(r, out) == Bit(Is(Responses, r, e1)) + Bit(Is(HandlingErrors, r, e1))
                                     + Bit(Is(Responses, r, e2)) + Bit(Is(HandlingErrors, r, e2))
            && Tally(Timeouts, r, out) == Bit(Is(Timeouts, r, e1)) + Bit(Is(Timeouts, r, e2))
  {
    QuietTally(quiet1, e1, r);
    QuietTally(quiet2, e2, r);
    TallyAppend(Dispatches, r, quiet1 + [e1], quiet2 + [e2]);
    TallyAppend(Responses, r, quiet1 + [e1], quiet2 + [e2]);
    TallyAppend(HandlingErrors, r, quiet1 + [e1], quiet2 + [e2]);
    TallyAppend(Timeouts, r, quiet1 + [e1], quiet2 + [e2]);
  }

  // ---------- harm ----------

  /** Event `k` dispatches `r` while it is open, or answers it while it is not. */
  ghost predicate HarmsAt(open: OngoingRequests, out: seq<Event>, r: RequestId, k: nat)
    requires k < |out|
  {
    || (Is(Dispatches, r, out[k]) && r in TrackAll(open, out[..k]))
    || (IsAnswer(out[k], r) && r !in TrackAll(open, out[..k]))
  }

  ghost predicate Harmed(open: OngoingRequests, out: seq<Event>, r: RequestId) {
    exists k :: 0 <= k < |out| && HarmsAt(open, out, r, k)
  }

  lemma HarmedNotAllowed(open: OngoingRequests, out: seq<Event>, r: RequestId)
    requires Harmed(open, out, r)
    ensures !AllAllowed(open, out)
  {
    var k :| 0 <= k < |out| && HarmsAt(open, out, r, k);
    if AllAllowed(open, out) {
      AllowedAt(open, out, k);
    }
  }

  /** A trace that ends with a harmful event. */
  lemma HarmedAtEnd(open: OngoingRequests, before: seq<Event>, e: Event, r: RequestId)
    requires if Is(Dispatches, r, e) then r in TrackAll(open, before)
             else IsAnswer(e, r) && r !in TrackAll(open, before)
    ensures Harmed(open, before + [e], r)
  {
    var out := before + [e];
    assert out[..|before|] == before;
    assert HarmsAt(open, out, r, |before|);
  }

  /** Two continuations, one after the other, the second of which harms what the first did. */
  lemma HarmedBySecond(open: OngoingRequests, quiet1: seq<Event>, e1: Event, quiet2: seq<Event>, e2: Event,
                       r: RequestId)
    requires Untracked(quiet1) && Untracked(quiet2)
    requires (Is(Dispatches, r, e1) && Is(Dispatches, r, e2)) || (Ends(e1, r) && IsAnswer(e2, r))
    ensures Harmed(open, (quiet1 + [e1]) + (quiet2 + [e2]), r)
  {
    TrackUntracked(open, quiet1);
    TrackOne(open, e1);
    TrackAppend(open, quiet1, [e1]);
    TrackUntracked(Track(open, e1), quiet2);
    TrackAppend(open, quiet1 + [e1], quiet2);
    HarmedAtEnd(open, quiet1 + [e1] + quiet2, e2, r);
    Regroup(quiet1 + [e1], quiet2, [e2]);
  }

  /** Two gentle continuations, of task `i` and then of task `j`. */
  lemma GentleBoth(p: Pool, i: nat, first: seq<Move>, j: nat, second: seq<Move>)
    requires Gentle(p, first, {i}, |p.tasks|) && |Play(p, first).pool.tasks| >= |p.tasks|
    requires Gentle(Play(p, first).pool, second, {j}, |Play(p, first).pool.tasks|)
    ensures Gentle(p, first + second, {i, j}, |p.tasks|)
  {
    GentleWiden(p, first, {i}, |p.tasks|, {i, j}, |p.tasks|);
    GentleWiden(Play(p, first).pool, second, {j}, |Play(p, first).pool.tasks|, {i, j}, |p.tasks|);
    GentleAppend(p, first, second, {i, j}, |p.tasks|);
  }

  /** Two requests with one id that both found it unused can both be dispatched. */
  lemma TwoDispatches(p: Pool, i: nat, j: nat, r: RequestId) returns (moves: seq<Move>, o1: Ongoing, o2: Ongoing)
    requires i < |p.tasks| && j < |p.tasks| && i != j && WellFormed(p.tasks[i]) && WellFormed(p.tasks[j])
    requires Asking(p.tasks[i]) == Some(r) && Asking(p.tasks[j]) == Some(r)
    ensures Gentle(p, moves, {i, j}, |p.tasks|) && Harmed(Tracked(p), Play(p, moves).out, r)
    ensures IsDispatchOf(o1, p.tasks[i].m) && IsDispatchOf(o2, p.tasks[j].m)
    ensures var out := Play(p, moves).out;
            && Dispatched(o1) in out && Dispatched(o2) in out
            && Tally(Dispatches, r, out) == 2 && Deliveries(r, out) == 0 && Tally(Timeouts, r, out) == 0
  {
    var first, quiet1;
    first, quiet1, o1 := DispatchSoon(p, i, r);
    var p1 := Play(p, first).pool;
    var second, quiet2;
    second, quiet2, o2 := DispatchSoon(p1, j, r);
    moves := first + second;
    PlayAppend(p, first, second);
    GentleBoth(p, i, first, j, second);
    HarmedBySecond(Tracked(p), quiet1, Dispatched(o1), quiet2, Dispatched(o2), r);
    TwoTally(quiet1, Dispatched(o1), quiet2, Dispatched(o2), r);
    var out := Play(p, moves).out;
    assert out[|quiet1|] == Dispatched(o1) && out[|out| - 1] == Dispatched(o2);
  }

  /** The entry that recording the request makes. */
  predicate IsDispatchOf(o: Ongoing, m: ClientMessage) {
    && m.QueryRequest? && o.requestId == m.requestId && o.queryId == m.queryId
    && o.parameters == m.parameters && o.requester == m.requester
  }

  /** Two answers that both found one request open can both be sent, the second after the request was ended. */
  lemma TwoAnswers(p: Pool, i: nat, j: nat, r: RequestId) returns (moves: seq<Move>)
    requires i < |p.tasks| && j < |p.tasks| && i != j && WellFormed(p.tasks[i]) && WellFormed(p.tasks[j])
    requires Closing(p.tasks[i]) == Some(r) && Closing(p.tasks[j]) == Some(r) && r in p.shared.ongoing
    requires p.tasks[i].Found? || p.tasks[i].Expiring?
    ensures Gentle(p, moves, {i, j}, |p.tasks|) && Harmed(Tracked(p), Play(p, moves).out, r)
    ensures p.tasks[i].Found? && p.tasks[j].Found? ==>
              var out := Play(p, moves).out;
              Deliveries(r, out) == 2 && Tally(Dispatches, r, out) == 0 && Tally(Timeouts, r, out) == 0
  {
    if p.tasks[j].Delivered? {
      var quiet, e;
      moves, quiet, e := AnswerSoon(p, i, r);
      GentleWiden(p, moves, {i}, |p.tasks|, {i, j}, |p.tasks|);
      TrackUntracked(Tracked(p), quiet);
      assert p.tasks[j] == Delivered(r);
      HarmedAtEnd(Tracked(p), quiet, e, r);
    } else {
      var first, quiet1, e1 := EndSoon(p, j, r);
      var p1 := Play(p, first).pool;
      var second, quiet2, e2 := AnswerSoon(p1, i, r);
      moves := first + second;
      PlayAppend(p, first, second);
      GentleBoth(p, j, first, i, second);
      assert {j, i} == {i, j};
      HarmedBySecond(Tracked(p), quiet1, e1, quiet2, e2, r);
      TwoTally(quiet1, e1, quiet2, e2, r);
    }
  }

  // ---------- every race can do harm, and only races can ----------

  /** The id a race is about. */
  ghost function RaceId(p: Pool, move: Move): RequestId
    requires Races(p, move)
  {
    if move.Run? then p.tasks[move.i].m.requestId else move.r
  }

  /** The task that raced: the one that ran, or the expiry that was started. */
  ghost function Racer(p: Pool, move: Move): nat
    requires Races(p, move)
  {
    if move.Run? then move.i else |p.tasks|
  }

  /** After every race, with no further race: registrations and disconnections aside, it is enough that the racing
      task and one other task with its id run, for the id to be dispatched while it is open or answered after it was
      ended. */
  lemma EveryRaceCanHarm(p: Pool, move: Move) returns (more: seq<Move>, j: nat)
    requires Orderly(p) && Races(p, move)
    ensures var p', r := MakeMove(p, move).pool, RaceId(p, move);
            && j < |p.tasks| && j != Racer(p, move) && WellFormed(p.tasks[j])
            && (Asking(p.tasks[j]) == Some(r) || Closing(p.tasks[j]) == Some(r))
            && Gentle(p', more, {Racer(p, move), j}, |p'.tasks|)
            && Harmed(Tracked(p), Play(p, [move] + more).out, r)
  {
    var p', i, r := MakeMove(p, move).pool, Racer(p, move), RaceId(p, move);
    if move.Run? && p.tasks[i].Looked? {
      j :| 0 <= j < |p.tasks| && j != i && WellFormed(p.tasks[j]) && Asking(p.tasks[j]) == Some(r);
      var o1, o2;
      more, o1, o2 := TwoDispatches(p', i, j, r);
    } else {
      j :| 0 <= j < |p.tasks| && j != i && WellFormed(p.tasks[j]) && Closing(p.tasks[j]) == Some(r);
      more := TwoAnswers(p', i, j, r);
    }
    RaceIsSilent(p, move);
    PlayFirst(p, move, more);
    assert [] + Play(p', more).out == Play(p', more).out;
  }

  lemma RaceIsSilent(p: Pool, move: Move)
    requires Orderly(p) && Races(p, move)
    ensures MakeMove(p, move).out == [] && Tracked(MakeMove(p, move).pool) == Tracked(p)
  {
    var p' := MakeMove(p, move).pool;
    if move.Run? {
      assert OrderlyTask(p, move.i);
      forall r ensures Delivered(r) in p'.tasks <==> Delivered(r) in p.tasks {
        DeliveredAfter(p, move.i, p'.tasks[move.i], r);
      }
    } else {
      assert forall r :: Delivered(r) in p'.tasks <==> Delivered(r) in p.tasks;
    }
  }

  /** A move of an orderly pool is a race exactly when some continuation without further races has a trace that an
      atomic broker does not allow. */
  lemma RacesAreWhatHarms(p: Pool, move: Move)
    requires SectionInvariant(p) && Orderly(p)
    ensures Races(p, move) <==>
              exists more :: NeverBreaks(OneAtATime, MakeMove(p, move).pool, more)
                             && !AllAllowed(Tracked(p), Play(p, [move] + more).out)
  {
    var p' := MakeMove(p, move).pool;
    if Races(p, move) {
      var more, j := EveryRaceCanHarm(p, move);
      GentleIsTame(p', more, {Racer(p, move), j}, |p'.tasks|);
      HarmedNotAllowed(Tracked(p), Play(p, [move] + more).out, RaceId(p, move));
    } else {
      forall more | NeverBreaks(OneAtATime, p', more) ensures AllAllowed(Tracked(p), Play(p, [move] + more).out) {
        MoveKeepsInvariant(p, move);
        MoveKeepsOrderExactly(p, move);
        MoveIsTracked(p, move);
        OrderlyPlaysAreAllowed(p', more);
        PlayFirst(p, move, more);
        TrackAppend(Tracked(p), MakeMove(p, move).out, Play(p', more).out);
      }
    }
  }

  // ---------- plays that show the races ----------

  lemma BothSpawn(b: Broker, m1: ClientMessage, m2: ClientMessage, rest: seq<Move>)
    ensures Play(Pool(b, []), [Spawn(m1)] + ([Spawn(m2)] + rest)) == Play(Pool(b, [Arrived(m1), Arrived(m2)]), rest)
  {
    var p0, p1, p2 := Pool(b, []), Pool(b, [Arrived(m1)]), Pool(b, [Arrived(m1), Arrived(m2)]);
    PlayFirst(p0, Spawn(m1), [Spawn(m2)] + rest);
    PlayFirst(p1, Spawn(m2), rest);
    assert MakeMove(p0, Spawn(m1)).pool == p1;
    assert MakeMove(p1, Spawn(m2)).pool == p2;
    assert [] + Play(p2, rest).out == Play(p2, rest).out;
  }

  /** A request or answer that has just arrived looks at the request table. */
  lemma FirstLook(p: Pool, i: nat, m: ClientMessage) returns (t: Task, look: seq<Move>)
    requires i < |p.tasks| && p.tasks[i] == Arrived(m)
    requires m.QueryRequest? ==> m.requestId !in p.shared.ongoing
    requires m.QueryRequest? || ((m.QueryResponse? || m.QueryHandlingFailed?) && m.requestId in p.shared.ongoing)
    ensures var r := Play(p, look);
            && r.out == [] && r.pool.tasks == p.tasks[i := t] && r.pool.shared.ongoing == p.shared.ongoing
            && r.pool.shared.connected.Keys == p.shared.connected.Keys
    ensures if m.QueryRequest? then t.Unique? && t.m == m else t.Found? && t.m == m
    ensures forall j :: 0 <= j < |look| ==> look[j].Run?
  {
    var p1 := MakeMove(p, Go(i)).pool;
    var p2 := MakeMove(p1, Go(i)).pool;
    if m.QueryRequest? {
      look := Thrice(i);
      ThreeMoves(p, i);
      t := MakeMove(p2, Go(i)).pool.tasks[i];
    } else {
      look := [Go(i)] + [Go(i)];
      PlayFirst(p, Go(i), [Go(i)]);
      OneMove(p1, Go(i));
      t := p2.tasks[i];
    }
  }

  /** The moves take the two messages and then only run tasks. */
  ghost predicate OnlySpawns(moves: seq<Move>, m1: ClientMessage, m2: ClientMessage) {
    && |moves| >= 2 && moves[..2] == [Spawn(m1), Spawn(m2)] && forall i :: 2 <= i < |moves| ==> moves[i].Run?
  }

  /** Two tasks that arrive together at a broker without tasks and both look before either goes on. */
  lemma BothLook(b: Broker, m1: ClientMessage, m2: ClientMessage) returns (moves: seq<Move>, p: Pool)
    requires if m1.QueryRequest? then m2.QueryRequest? && m1.requestId == m2.requestId && m1.requestId !in b.ongoing
             else && (m1.QueryResponse? || m1.QueryHandlingFailed?) && (m2.QueryResponse? || m2.QueryHandlingFailed?)
                  && m1.requestId == m2.requestId && m1.requestId in b.ongoing
    ensures Play(Pool(b, []), moves) == Moved(p, []) && p.shared.ongoing == b.ongoing && |p.tasks| == 2
    ensures WellFormed(p.tasks[0]) && WellFormed(p.tasks[1])
    ensures m1.QueryRequest? ==> p.tasks[0].Unique? && Asking(p.tasks[0]) == Asking(p.tasks[1]) == Some(m1.requestId)
    ensures !m1.QueryRequest? ==>
              p.tasks[0].Found? && p.tasks[1].Found? && Closing(p.tasks[0]) == Closing(p.tasks[1]) == Some(m1.requestId)
    ensures forall i :: 0 <= i < |p.tasks| ==> !p.tasks[i].Delivered?
    ensures m1.QueryRequest? ==> p.tasks[1].Unique? && p.tasks[0].m == m1 && p.tasks[1].m == m2
    ensures OnlySpawns(moves, m1, m2)
  {
    var p1 := Pool(b, [Arrived(m1), Arrived(m2)]);
    var t1, look1 := FirstLook(p1, 0, m1);
    var p2 := Play(p1, look1).pool;
    var t2, look2 := FirstLook(p2, 1, m2);
    p := Play(p2, look2).pool;
    PlayAppend(p1, look1, look2);
    BothSpawn(b, m1, m2, look1 + look2);
    moves := [Spawn(m1)] + ([Spawn(m2)] + (look1 + look2));
  }

  lemma NothingDelivered(p: Pool)
    requires forall i :: 0 <= i < |p.tasks| ==> !p.tasks[i].Delivered?
    ensures Tracked(p) == p.shared.ongoing
  {
  }

  /** Two requests with one unused id that arrive together: a play in which both are recorded, with neither an answer
      nor a timeout, and in which nothing else arrives but registrations and disconnections. */
  lemma RacingRequestsDispatchTwice(b: Broker, m1: ClientMessage, m2: ClientMessage)
    returns (look: seq<Move>, rest: seq<Move>, o1: Ongoing, o2: Ongoing)
    requires m1.QueryRequest? && m2.QueryRequest? && m1.requestId == m2.requestId && m1.requestId !in b.ongoing
    ensures OnlySpawns(look, m1, m2) && Play(Pool(b, []), look).out == []
    ensures Gentle(Play(Pool(b, []), look).pool, rest, {0, 1}, 2)
    ensures IsDispatchOf(o1, m1) && IsDispatchOf(o2, m2)
    ensures var out, r := Play(Pool(b, []), look + rest).out, m1.requestId;
            && Harmed(b.ongoing, out, r) && Dispatched(o1) in out && Dispatched(o2) in out
            && Tally(Dispatches, r, out) == 2 && Deliveries(r, out) == 0 && Tally(Timeouts, r, out) == 0
  {
    var p;
    look, p := BothLook(b, m1, m2);
    rest, o1, o2 := TwoDispatches(p, 0, 1, m1.requestId);
    NothingDelivered(p);
    AfterSilence(Pool(b, []), look, p, rest);
  }

  /** Two answers to one open request that arrive together: a play in which both are delivered, without a new
      dispatch. */
  lemma RacingAnswersDeliverTwice(b: Broker, m1: ClientMessage, m2: ClientMessage)
    returns (look: seq<Move>, rest: seq<Move>)
    requires (m1.QueryResponse? || m1.QueryHandlingFailed?) && (m2.QueryResponse? || m2.QueryHandlingFailed?)
    requires m1.requestId == m2.requestId && m1.requestId in b.ongoing
    ensures OnlySpawns(look, m1, m2) && Play(Pool(b, []), look).out == []
    ensures Gentle(Play(Pool(b, []), look).pool, rest, {0, 1}, 2)
    ensures var out, r := Play(Pool(b, []), look + rest).out, m1.requestId;
            && Harmed(b.ongoing, out, r)
            && Deliveries(r, out) == 2 && Tally(Dispatches, r, out) == 0 && Tally(Timeouts, r, out) == 0
  {
    var p;
    look, p := BothLook(b, m1, m2);
    rest := TwoAnswers(p, 0, 1, m1.requestId);
    NothingDelivered(p);
    AfterSilence(Pool(b, []), look, p, rest);
  }
}

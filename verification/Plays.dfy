/** Plays that run one task at a time, and continuations that start nothing but registrations and disconnections
    (src/domain/state.rs:168-192). */
module Plays {
  import opened Ids
  import opened Messages
  import opened QueryHandlers
  import opened EventStore
  import opened StateMachine
  import opened Requests
  import opened LockSections
  import opened Interleavings

  // ---------- plays that run one task at a time ----------

  lemma {:induction false} PlayAppend(p: Pool, moves: seq<Move>, more: seq<Move>)
    ensures Play(p, moves + more) == Moved(Play(Play(p, moves).pool, more).pool,
                                            Play(p, moves).out + Play(Play(p, moves).pool, more).out)
    decreases |more|
  {
    if more == [] {
      assert moves + more == moves;
    } else {
      var front, last := more[..|more| - 1], more[|more| - 1];
      PlayAppend(p, moves, front);
      assert (moves + more)[..|moves + more| - 1] == moves + front;
      var middle := Play(Play(p, moves).pool, front);
      Regroup(Play(p, moves).out, middle.out, MakeMove(middle.pool, last).out);
    }
  }

  lemma PlayFirst(p: Pool, move: Move, rest: seq<Move>)
    ensures Play(p, [move] + rest) == Moved(Play(MakeMove(p, move).pool, rest).pool,
                                            MakeMove(p, move).out + Play(MakeMove(p, move).pool, rest).out)
  {
    assert [move][..0] == [];
    assert Play(p, [move]) == MakeMove(p, move);
    PlayAppend(p, [move], rest);
  }

  /** Running one task to its end is a play. */
  lemma RunToEnd(p: Pool, i: nat, now: int, net: Net, st: Storage) returns (moves: seq<Move>)
    requires i < |p.tasks| && WellFormed(p.tasks[i])
    ensures var alone := RunAlone(p.shared, p.tasks[i], now, net, st);
            Play(p, moves) == Moved(Pool(alone.state, p.tasks[i := Done]), alone.out)
    ensures forall k :: 0 <= k < |moves| ==> moves[k] == Run(i, now, net, st)
    decreases Remaining(p.tasks[i])
  {
    if p.tasks[i].Done? {
      moves := [];
      assert p.tasks[i := Done] == p.tasks;
    } else {
      var p' := MakeMove(p, Run(i, now, net, st)).pool;
      var rest := RunToEnd(p', i, now, net, st);
      moves := [Run(i, now, net, st)] + rest;
      PlayFirst(p, Run(i, now, net, st), rest);
      assert p'.tasks[i := Done] == p.tasks[i := Done];
    }
  }

  /** A message that arrives and is handled without interruption: the atomic step, as a play. */
  lemma PlayMessage(p: Pool, m: ClientMessage, now: int, net: Net, st: Storage) returns (moves: seq<Move>)
    ensures var handled := HandleMessage(p.shared, m, now, net, st);
            Play(p, moves) == Moved(Pool(handled.state, p.tasks + [Done]), handled.out)
  {
    var p', i := MakeMove(p, Spawn(m)).pool, |p.tasks|;
    var rest := RunToEnd(p', i, now, net, st);
    UninterruptedIsAtomic(p.shared, m, now, net, st);
    moves := [Spawn(m)] + rest;
    PlayFirst(p, Spawn(m), rest);
    assert p'.tasks[i := Done] == p.tasks + [Done];
    assert [] + Play(p', rest).out == Play(p', rest).out;
  }

  const ALL_SENDS_WORK: Net := (c, tx, msg) => true

  function Go(i: nat): Move {
    Run(i, 0, ALL_SENDS_WORK, NO_STORAGE)
  }

  lemma OneMove(p: Pool, move: Move)
    ensures Play(p, [move]) == MakeMove(p, move)
  {
    assert [move][..0] == [];
  }

  function Thrice(i: nat): seq<Move> {
    [Go(i), Go(i), Go(i)]
  }

  lemma ThreeMoves(p: Pool, i: nat)
    ensures var m1 := MakeMove(p, Go(i));
            var m2 := MakeMove(m1.pool, Go(i));
            var m3 := MakeMove(m2.pool, Go(i));
            Play(p, Thrice(i)) == Moved(m3.pool, m1.out + (m2.out + m3.out))
  {
    assert Thrice(i) == [Go(i)] + ([Go(i)] + [Go(i)]);
    var p1 := MakeMove(p, Go(i)).pool;
    PlayFirst(p, Go(i), [Go(i)] + [Go(i)]);
    PlayFirst(p1, Go(i), [Go(i)]);
    OneMove(MakeMove(p1, Go(i)).pool, Go(i));
  }

  /** A silent start does not show in the trace. */
  lemma AfterSilence(p: Pool, look: seq<Move>, p': Pool, rest: seq<Move>)
    requires Play(p, look) == Moved(p', [])
    ensures Play(p, look + rest).out == Play(p', rest).out
  {
    PlayAppend(p, look, rest);
    assert [] + Play(p', rest).out == Play(p', rest).out;
  }


  // ---------- gentle continuations ----------

  predicate IsClientMessage(m: ClientMessage) {
    m.RegisterClient? || m.DisconnectClient?
  }

  /** The move takes a registration or disconnection, or runs one of `tasks` or a task that is not among the first
      `known`, and it is neither a race nor a stray registration. */
  ghost predicate GentleMove(p: Pool, move: Move, tasks: set<nat>, known: nat) {
    match move
    case Spawn(m) => IsClientMessage(m)
    case Run(i, _, _, _) => (i in tasks || i >= known) && !Races(p, move) && !Strays(p, move)
    case _ => false
  }

  ghost predicate Gentle(p: Pool, moves: seq<Move>, tasks: set<nat>, known: nat)
    decreases |moves|
  {
    moves == [] ||
    var front := moves[..|moves| - 1];
    Gentle(p, front, tasks, known) && GentleMove(Play(p, front).pool, moves[|moves| - 1], tasks, known)
  }

  lemma {:induction false} GentleAppend(p: Pool, moves: seq<Move>, more: seq<Move>, tasks: set<nat>, known: nat)
    requires Gentle(p, moves, tasks, known) && Gentle(Play(p, moves).pool, more, tasks, known)
    ensures Gentle(p, moves + more, tasks, known)
    decreases |more|
  {
    if more == [] {
      assert moves + more == moves;
    } else {
      var front := more[..|more| - 1];
      GentleAppend(p, moves, front, tasks, known);
      PlayAppend(p, moves, front);
      assert (moves + more)[..|moves + more| - 1] == moves + front;
    }
  }

  lemma {:induction false} GentleWiden(p: Pool, moves: seq<Move>, tasks: set<nat>, known: nat, tasks': set<nat>,
                                       known': nat)
    requires Gentle(p, moves, tasks, known)
    requires forall i: nat :: i in tasks || i >= known ==> i in tasks' || i >= known'
    ensures Gentle(p, moves, tasks', known')
    decreases |moves|
  {
    if moves != [] {
      GentleWiden(p, moves[..|moves| - 1], tasks, known, tasks', known');
    }
  }

  lemma GentleOne(p: Pool, move: Move, tasks: set<nat>, known: nat)
    requires GentleMove(p, move, tasks, known)
    ensures Gentle(p, [move], tasks, known) && Play(p, [move]) == MakeMove(p, move)
  {
    OneMove(p, move);
    assert [move][..0] == [];
    assert Play(p, []).pool == p;
  }

  /** A gentle continuation has no races and no stray registrations. */
  lemma {:induction false} GentleIsTame(p: Pool, moves: seq<Move>, tasks: set<nat>, known: nat)
    requires Gentle(p, moves, tasks, known)
    ensures NeverBreaks(OneAtATime, p, moves) && NeverBreaks(NoStrays, p, moves)
    decreases |moves|
  {
    if moves != [] {
      GentleIsTame(p, moves[..|moves| - 1], tasks, known);
    }
  }

  /** A task that only registers a client that stays connected, or disconnects one. */
  predicate IsClientTask(b: Broker, t: Task) {
    match t
    case Arrived(m) => IsClientMessage(m)
    case Touched(m) => IsClientMessage(m)
    case Admitted(m) => m.RegisterClient?
    case Inserted(m) => m.RegisterClient? && m.client in b.connected
    case Unlisted(_) => true
    case Done => true
    case _ => false
  }

  lemma SectionKeepsClientTask(b: Broker, t: Task, now: int, net: Net, st: Storage)
    requires IsClientTask(b, t)
    ensures var s := Section(b, t, now, net, st); IsClientTask(s.shared, s.task)
  {
  }

  lemma RunClientTask(p: Pool, i: nat, now: int, net: Net, st: Storage, known: nat) returns (moves: seq<Move>)
    requires i < |p.tasks| && IsClientTask(p.shared, p.tasks[i])
    ensures var alone := RunAlone(p.shared, p.tasks[i], now, net, st);
            Play(p, moves) == Moved(Pool(alone.state, p.tasks[i := Done]), alone.out)
    ensures Gentle(p, moves, {i}, known)
    decreases Remaining(p.tasks[i])
  {
    if p.tasks[i].Done? {
      moves := [];
      assert p.tasks[i := Done] == p.tasks;
    } else {
      var move := Run(i, now, net, st);
      var p' := MakeMove(p, move).pool;
      SectionKeepsClientTask(p.shared, p.tasks[i], now, net, st);
      var rest := RunClientTask(p', i, now, net, st, known);
      moves := [move] + rest;
      PlayFirst(p, move, rest);
      GentleOne(p, move, {i}, known);
      GentleAppend(p, [move], rest, {i}, known);
      assert p'.tasks[i := Done] == p.tasks[i := Done];
    }
  }

  /** A registration or disconnection that is handled without interruption, as a gentle play. */
  lemma PlayClientMessage(p: Pool, m: ClientMessage, now: int, net: Net, st: Storage) returns (moves: seq<Move>)
    requires IsClientMessage(m)
    ensures var handled := HandleMessage(p.shared, m, now, net, st);
            Play(p, moves) == Moved(Pool(handled.state, p.tasks + [Done]), handled.out)
    ensures Gentle(p, moves, {}, |p.tasks|)
  {
    var p', i := MakeMove(p, Spawn(m)).pool, |p.tasks|;
    var rest := RunClientTask(p', i, now, net, st, i);
    UninterruptedIsAtomic(p.shared, m, now, net, st);
    moves := [Spawn(m)] + rest;
    PlayFirst(p, Spawn(m), rest);
    GentleWiden(p', rest, {i}, i, {}, i);
    GentleOne(p, Spawn(m), {}, i);
    GentleAppend(p, [Spawn(m)], rest, {}, i);
    assert p'.tasks[i := Done] == p.tasks + [Done];
    assert [] + Play(p', rest).out == Play(p', rest).out;
  }

  /** The events leave the open requests alone. */
  ghost predicate Untracked(out: seq<Event>) {
    forall i :: 0 <= i < |out| ==>
          !out[i].Dispatched? && !out[i].TimedOut? && !(out[i].Sent? && out[i].ok && Closes(out[i].msg))
  }

  /** The continuation adds only finished tasks. */
  ghost predicate OnlyAddsDone(p: Pool, p': Pool) {
    && |p'.tasks| >= |p.tasks| && p'.tasks[..|p.tasks|] == p.tasks
    && forall i :: |p.tasks| <= i < |p'.tasks| ==> p'.tasks[i].Done?
  }

  /** Disconnecting a client and registering it again, one after the other. */
  function ComeBack(b: Broker, c: ClientId, queries: seq<QueryId>): Outcome {
    var left := HandleMessage(b, DisconnectClient(c), 0, ALL_SENDS_WORK, NO_STORAGE);
    var back := HandleMessage(left.state, RegisterClient(c, queries, Tx(0)), 0, ALL_SENDS_WORK, NO_STORAGE);
    Outcome(back.state, left.out + back.out)
  }

  lemma ComeBackConnects(b: Broker, c: ClientId, queries: seq<QueryId>)
    ensures var r := ComeBack(b, c, queries);
            && r.state.ongoing == b.ongoing && r.state.connected.Keys == b.connected.Keys + {c} && Untracked(r.out)
            && r.state.handlers == AddAll(RemoveClient(b.handlers, c), c, queries)
  {
    var left := HandleMessage(b, DisconnectClient(c), 0, ALL_SENDS_WORK, NO_STORAGE);
    assert left.state.connected.Keys == b.connected.Keys - {c};
    var back := HandleMessage(left.state, RegisterClient(c, queries, Tx(0)), 0, ALL_SENDS_WORK, NO_STORAGE);
    assert back.state.connected.Keys == left.state.connected.Keys + {c};
  }

  /** A client can always come back and declare some queries, while the other tasks wait. */
  lemma Reconnect(p: Pool, c: ClientId, queries: seq<QueryId>) returns (moves: seq<Move>)
    ensures var r := Play(p, moves);
            && r.pool == Pool(ComeBack(p.shared, c, queries).state, p.tasks + [Done, Done])
            && r.out == ComeBack(p.shared, c, queries).out
    ensures Gentle(p, moves, {}, |p.tasks|)
  {
    var leave, join := DisconnectClient(c), RegisterClient(c, queries, Tx(0));
    var first := PlayClientMessage(p, leave, 0, ALL_SENDS_WORK, NO_STORAGE);
    var p1 := Play(p, first).pool;
    var second := PlayClientMessage(p1, join, 0, ALL_SENDS_WORK, NO_STORAGE);
    moves := first + second;
    PlayAppend(p, first, second);
    GentleWiden(p1, second, {}, |p1.tasks|, {}, |p.tasks|);
    GentleAppend(p, first, second, {}, |p.tasks|);
    assert p1.tasks + [Done] == p.tasks + [Done, Done];
  }

  lemma ComeBackServes(b: Broker, c: ClientId, queries: seq<QueryId>, q: QueryId)
    ensures q in queries ==> Lookup(ComeBack(b, c, queries).state.handlers, q) != []
  {
    ComeBackConnects(b, c, queries);
    ListedAfterInsertion(RemoveClient(b.handlers, c), RegisterClient(c, queries, Tx(0)), q, c);
  }
}

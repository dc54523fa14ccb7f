/** The client table and the handler index when registrations and disconnections interleave
    (src/domain/state.rs:194-224, src/domain/state.rs:480-484). */
module InterleavedClients {
  import opened Ids
  import opened Messages
  import opened QueryHandlers
  import opened EventStore
  import opened StateMachine
  import opened Registry
  import opened LockSections
  import opened Interleavings
  import opened Plays

  // ---------- the handler index, under every interleaving ----------

  ghost predicate IndexFollows(b: Broker, regs: Registry) {
    forall q :: Lookup(b.handlers, q) == HandlersOf(regs, q)
  }

  /** Sections other than the ends of registrations and disconnections leave the registrations alone. */
  lemma OtherSectionsRecordNothing(b: Broker, t: Task, now: int, net: Net, st: Storage)
    requires WellFormed(t) && !t.Inserted? && !t.Unlisted?
    ensures NoRegistryEvents(Section(b, t, now, net, st).out)
  {
  }

  lemma SectionIndexFollows(b: Broker, t: Task, now: int, net: Net, st: Storage, regs: Registry)
    requires WellFormed(t) && IndexFollows(b, regs)
    ensures var s := Section(b, t, now, net, st); IndexFollows(s.shared, Replay(regs, s.out))
  {
    var s := Section(b, t, now, net, st);
    match t
    case Inserted(m) =>
      var reg := Registration(m.client, m.queries, m.tx);
      ReplayOne(regs, Registered(m.client, m.queries, m.tx));
      forall q ensures Lookup(s.shared.handlers, q) == HandlersOf(regs + [reg], q) {
        AcceptedHandlers(b, regs, reg, q);
      }
    case Unlisted(c) =>
      ReplayOne(regs, Disconnected(c));
      forall q ensures Lookup(s.shared.handlers, q) == HandlersOf(Drop(regs, c), q) {
        LookupAfterRemove(b.handlers, c, q);
        DropHandlers(regs, c, q);
      }
    case _ =>
      OtherSectionsRecordNothing(b, t, now, net, st);
      OtherSectionsKeepHandlers(b, t, now, net, st);
      ReplayQuiet(regs, s.out);
  }

  /** Moves that run no section record nothing and leave both client tables alone. */
  lemma OtherMovesRecordNothing(p: Pool, move: Move)
    requires move.Run? ==> move.i >= |p.tasks|
    ensures var n := MakeMove(p, move);
            && NoRegistryEvents(n.out) && n.pool.shared.handlers == p.shared.handlers
            && n.pool.shared.connected == p.shared.connected
  {
    if move.RunJob? && move.job < |p.shared.jobs| {
      BroadcastSays(p.shared, move.order, SourceEventBroadcast(p.shared.jobs[move.job]), move.net);
    }
  }

  /** Under every interleaving the handler index is exactly that of the registrations in the trace, in registration
      order. */
  lemma {:induction false} IndexFollowsTrace(p: Pool, regs: Registry, moves: seq<Move>)
    requires SectionInvariant(p) && IndexFollows(p.shared, regs)
    ensures IndexFollows(Play(p, moves).pool.shared, Replay(regs, Play(p, moves).out))
    decreases |moves|
  {
    if moves != [] {
      var front, last := moves[..|moves| - 1], moves[|moves| - 1];
      IndexFollowsTrace(p, regs, front);
      EveryInterleaving(p, front);
      var before := Play(p, front);
      var step, regs1 := MakeMove(before.pool, last), Replay(regs, before.out);
      ReplayAppend(regs, before.out, step.out);
      if last.Run? && last.i < |before.pool.tasks| {
        SectionIndexFollows(before.pool.shared, before.pool.tasks[last.i], last.now, last.net, last.st, regs1);
      } else {
        OtherMovesRecordNothing(before.pool, last);
        ReplayQuiet(regs1, step.out);
      }
    }
  }

  // ---------- the client table, while no tasks collide ----------

  /** A registration of `c` has connected it and not listed it. */
  ghost predicate Joining(p: Pool, c: ClientId) {
    exists i :: 0 <= i < |p.tasks| && WellFormed(p.tasks[i]) && p.tasks[i].Inserted? && p.tasks[i].m.client == c
  }

  /** Each client is registered once, and the connected clients are the registered ones, except for those
      whose registration or disconnection is half done. */
  ghost predicate TablesMatch(p: Pool, regs: Registry) {
    && DistinctClients(regs)
    && forall c :: c in p.shared.connected <==> (c in Clients(regs) && !Leaving(p, c)) || Joining(p, c)
  }

  /** Every connected client is reached on the channel it registered with. */
  ghost predicate ChannelsMatch(p: Pool, regs: Registry) {
    && (forall k :: 0 <= k < |regs| && regs[k].client in p.shared.connected ==>
          p.shared.connected[regs[k].client].tx == regs[k].tx)
    && (forall i :: 0 <= i < |p.tasks| && WellFormed(p.tasks[i]) && p.tasks[i].Inserted? ==>
          && p.tasks[i].m.client in p.shared.connected
          && p.shared.connected[p.tasks[i].m.client].tx == p.tasks[i].m.tx)
  }

  ghost predicate ClientsInOrder(p: Pool, regs: Registry) {
    && OneTaskPerClient(p) && TablesMatch(p, regs) && ChannelsMatch(p, regs)
    && forall i :: 0 <= i < |p.tasks| && WellFormed(p.tasks[i]) && Entering(p.tasks[i]).Some? ==>
                     Entering(p.tasks[i]).value !in Clients(regs)
  }

  lemma InsertedEnters(p: Pool, i: nat, k: nat)
    requires k < |p.tasks| && k != i && WellFormed(p.tasks[k]) && p.tasks[k].Inserted?
    ensures EnteringElsewhere(p, i, p.tasks[k].m.client)
  {
  }

  /** Who joins and leaves after task `i` ran. */
  lemma HalfDoneAfter(p: Pool, move: Move, c: ClientId)
    requires OneTaskPerClient(p) && move.Run? && move.i < |p.tasks|
    ensures var p', t := MakeMove(p, move).pool, p.tasks[move.i];
            && WellFormed(p'.tasks[move.i])
            && (Joining(p', c) <==>
                  (Joining(p, c) && !(t.Inserted? && t.m.client == c)) || (t.Admitted? && t.m.client == c))
            && (Leaving(p', c) <==> p'.tasks[move.i] == Unlisted(c) || LeavingElsewhere(p, move.i, c))
            && (Leaving(p, c) <==> t == Unlisted(c) || LeavingElsewhere(p, move.i, c))
  {
    var p', i, t := MakeMove(p, move).pool, move.i, p.tasks[move.i];
    assert AloneWithClient(p, i);
    SectionOnClients(p.shared, t, move.now, move.net, move.st);
    if Joining(p, c) && !(t.Inserted? && t.m.client == c) {
      var k :| 0 <= k < |p.tasks| && WellFormed(p.tasks[k]) && p.tasks[k].Inserted? && p.tasks[k].m.client == c;
      assert p'.tasks[k] == p.tasks[k];
    }
    if t.Admitted? && t.m.client == c {
      assert p'.tasks[i].Inserted?;
    }
    if Joining(p', c) && !(t.Admitted? && t.m.client == c) {
      var k :| 0 <= k < |p'.tasks| && WellFormed(p'.tasks[k]) && p'.tasks[k].Inserted? && p'.tasks[k].m.client == c;
      assert k != i && p'.tasks[k] == p.tasks[k];
      InsertedEnters(p, i, k);
    }
    LeavingAfter(p, move, c);
  }

  ghost predicate LeavingElsewhere(p: Pool, i: nat, c: ClientId) {
    exists j :: 0 <= j < |p.tasks| && j != i && p.tasks[j] == Unlisted(c)
  }

  lemma LeavingAfter(p: Pool, move: Move, c: ClientId)
    requires move.Run? && move.i < |p.tasks|
    ensures var p' := MakeMove(p, move).pool;
            && (Leaving(p', c) <==> p'.tasks[move.i] == Unlisted(c) || LeavingElsewhere(p, move.i, c))
            && (Leaving(p, c) <==> p.tasks[move.i] == Unlisted(c) || LeavingElsewhere(p, move.i, c))
  {
    var p', i := MakeMove(p, move).pool, move.i;
    if Leaving(p', c) {
      var k :| 0 <= k < |p'.tasks| && p'.tasks[k] == Unlisted(c);
      assert k != i ==> p.tasks[k] == Unlisted(c);
    }
    if LeavingElsewhere(p, i, c) {
      var k :| 0 <= k < |p.tasks| && k != i && p.tasks[k] == Unlisted(c);
      assert p'.tasks[k] == Unlisted(c);
    }
    if p'.tasks[i] == Unlisted(c) {
      assert p'.tasks[i] in p'.tasks;
    }
  }

  /** A section moves nobody to another channel, except for a client that joins. */
  lemma SectionKeepsChannels(b: Broker, t: Task, now: int, net: Net, st: Storage)
    requires WellFormed(t)
    ensures var b' := Section(b, t, now, net, st).shared.connected;
            && (forall c :: c in b' && !(t.Admitted? && t.m.client == c) ==>
                  c in b.connected && b'[c].tx == b.connected[c].tx)
            && (t.Admitted? ==> t.m.client in b' && b'[t.m.client].tx == t.m.tx)
  {
  }

  /** The registrations after a section, as a set of clients. */
  lemma RecordedClients(p: Pool, move: Move, regs: Registry)
    requires ClientsInOrder(p, regs) && move.Run? && move.i < |p.tasks|
    ensures var t, regs' := p.tasks[move.i], Replay(regs, MakeMove(p, move).out);
            && WellFormed(t) && DistinctClients(regs')
            && Clients(regs') == (if t.Inserted? then Clients(regs) + {t.m.client}
                                  else if t.Unlisted? then Clients(regs) - {t.c} else Clients(regs))
            && (forall reg :: reg in regs' ==>
                  reg in regs || (t.Inserted? && reg == Registration(t.m.client, t.m.queries, t.m.tx)))
  {
    var t, out := p.tasks[move.i], MakeMove(p, move).out;
    assert AloneWithClient(p, move.i);
    match t
    case Inserted(m) =>
      var reg := Registration(m.client, m.queries, m.tx);
      ReplayOne(regs, Registered(m.client, m.queries, m.tx));
      ClientsAppend(regs, reg);
      forall i: nat | i < |regs| ensures regs[i].client != reg.client {
        ClientAt(regs, i);
      }
    case Unlisted(c) =>
      ReplayOne(regs, Disconnected(c));
      DropClients(regs, c);
      DropMembers(regs, c);
    case _ =>
      OtherSectionsRecordNothing(p.shared, t, move.now, move.net, move.st);
      ReplayQuiet(regs, out);
  }

  lemma RunKeepsTables(p: Pool, move: Move, regs: Registry)
    requires ClientsInOrder(p, regs) && !Collides(p, move) && move.Run? && move.i < |p.tasks|
    ensures TablesMatch(MakeMove(p, move).pool, Replay(regs, MakeMove(p, move).out))
  {
    var i, t, p' := move.i, p.tasks[move.i], MakeMove(p, move).pool;
    RecordedClients(p, move, regs);
    assert AloneWithClient(p, i);
    SectionOnClients(p.shared, t, move.now, move.net, move.st);
    forall c ensures c in p'.shared.connected
                     <==> (c in Clients(Replay(regs, MakeMove(p, move).out)) && !Leaving(p', c)) || Joining(p', c)
    {
      HalfDoneAfter(p, move, c);
      JoiningIsEntering(p, c, i);
    }
  }

  /** Nobody joins and leaves at once, and whoever joins is entering. */
  lemma JoiningIsEntering(p: Pool, c: ClientId, i: nat)
    requires OneTaskPerClient(p) && i < |p.tasks|
    ensures Joining(p, c) ==> !Leaving(p, c) && (Entering(p.tasks[i]) == Some(c) || EnteringElsewhere(p, i, c))
  {
    if Joining(p, c) {
      var k :| 0 <= k < |p.tasks| && WellFormed(p.tasks[k]) && p.tasks[k].Inserted? && p.tasks[k].m.client == c;
      assert AloneWithClient(p, k);
    }
  }

  lemma RunKeepsChannels(p: Pool, move: Move, regs: Registry)
    requires ClientsInOrder(p, regs) && !Collides(p, move) && move.Run? && move.i < |p.tasks|
    ensures ChannelsMatch(MakeMove(p, move).pool, Replay(regs, MakeMove(p, move).out))
  {
    var i, t, p', regs' := move.i, p.tasks[move.i], MakeMove(p, move).pool, Replay(regs, MakeMove(p, move).out);
    RecordedClients(p, move, regs);
    assert AloneWithClient(p, i);
    SectionOnClients(p.shared, t, move.now, move.net, move.st);
    SectionKeepsChannels(p.shared, t, move.now, move.net, move.st);
    forall k | 0 <= k < |regs'| && regs'[k].client in p'.shared.connected
      ensures p'.shared.connected[regs'[k].client].tx == regs'[k].tx
    {
      assert regs'[k] in regs';
      if regs'[k] in regs {
        var j :| 0 <= j < |regs| && regs[j] == regs'[k];
        ClientAt(regs, j);
      }
    }
    forall j | 0 <= j < |p'.tasks| && WellFormed(p'.tasks[j]) && p'.tasks[j].Inserted?
      ensures p'.tasks[j].m.client in p'.shared.connected
              && p'.shared.connected[p'.tasks[j].m.client].tx == p'.tasks[j].m.tx
    {
      if j != i {
        JoinerStays(p, move, j);
      }
    }
  }

  /** A client that joins stays connected on its channel while another task runs. */
  lemma JoinerStays(p: Pool, move: Move, j: nat)
    requires OneTaskPerClient(p) && !Collides(p, move) && move.Run? && move.i < |p.tasks|
    requires j < |p.tasks| && j != move.i && p.tasks[j].Inserted?
    requires WellFormed(p.tasks[j])
    ensures var c, b' := p.tasks[j].m.client, MakeMove(p, move).pool.shared;
            c in p.shared.connected && c in b'.connected && b'.connected[c].tx == p.shared.connected[c].tx
  {
    var t := p.tasks[move.i];
    assert AloneWithClient(p, move.i) && AloneWithClient(p, j);
    BusyAfter(p, move, j, p.tasks[j].m.client);
    SectionOnClients(p.shared, t, move.now, move.net, move.st);
    SectionKeepsChannels(p.shared, t, move.now, move.net, move.st);
  }

  lemma RunKeepsEnteringNew(p: Pool, move: Move, regs: Registry, j: nat)
    requires ClientsInOrder(p, regs) && !Collides(p, move) && move.Run? && move.i < |p.tasks| && j < |p.tasks|
    ensures var p' := MakeMove(p, move).pool;
            && WellFormed(p'.tasks[j])
            && (Entering(p'.tasks[j]).Some? ==>
                  Entering(p'.tasks[j]).value !in Clients(Replay(regs, MakeMove(p, move).out)))
  {
    var p', i := MakeMove(p, move).pool, move.i;
    assert AloneWithClient(p, i) && AloneWithClient(p, j);
    RecordedClients(p, move, regs);
    SectionOnClients(p.shared, p.tasks[i], move.now, move.net, move.st);
    if Entering(p'.tasks[j]).Some? {
      var c := Entering(p'.tasks[j]).value;
      BusyAfter(p, move, j, c);
      JoiningIsEntering(p, c, i);
    }
  }

  lemma MoveKeepsClients(p: Pool, move: Move, regs: Registry)
    requires ClientsInOrder(p, regs) && !Collides(p, move)
    ensures ClientsInOrder(MakeMove(p, move).pool, Replay(regs, MakeMove(p, move).out))
  {
    MoveKeepsEntriesExactly(p, move);
    var p' := MakeMove(p, move).pool;
    if move.Run? && move.i < |p.tasks| {
      RunKeepsTables(p, move, regs);
      RunKeepsChannels(p, move, regs);
      forall j | 0 <= j < |p'.tasks| && WellFormed(p'.tasks[j]) && Entering(p'.tasks[j]).Some?
        ensures Entering(p'.tasks[j]).value !in Clients(Replay(regs, MakeMove(p, move).out))
      {
        RunKeepsEnteringNew(p, move, regs, j);
      }
    } else {
      OtherMovesRecordNothing(p, move);
      ReplayQuiet(regs, MakeMove(p, move).out);
      forall c ensures (Joining(p', c) <==> Joining(p, c)) && (Leaving(p', c) <==> Leaving(p, c)) {
        OtherMovesKeepClientTasks(p, move, c);
      }
    }
  }

  lemma OtherMovesKeepClientTasks(p: Pool, move: Move, c: ClientId)
    requires move.Run? ==> move.i >= |p.tasks|
    ensures var p' := MakeMove(p, move).pool; (Joining(p', c) <==> Joining(p, c)) && (Leaving(p', c) <==> Leaving(p, c))
  {
    var p' := MakeMove(p, move).pool;
    assert forall k :: 0 <= k < |p.tasks| ==> p'.tasks[k] == p.tasks[k];
    if Joining(p, c) {
      var k :| 0 <= k < |p.tasks| && WellFormed(p.tasks[k]) && p.tasks[k].Inserted? && p.tasks[k].m.client == c;
      assert p'.tasks[k].Inserted?;
    }
    if Leaving(p, c) {
      var k :| 0 <= k < |p.tasks| && p.tasks[k] == Unlisted(c);
      assert p'.tasks[k] == Unlisted(c);
    }
  }

  /** In every interleaving without collisions: the connected clients are those of the registrations in the trace,
      once each and on their own channels, apart from the ones whose registration or disconnection is half done. */
  lemma {:induction false} ClientsFollowTrace(p: Pool, regs: Registry, moves: seq<Move>)
    requires ClientsInOrder(p, regs) && NeverBreaks(OneEntry, p, moves)
    ensures ClientsInOrder(Play(p, moves).pool, Replay(regs, Play(p, moves).out))
    decreases |moves|
  {
    if moves != [] {
      var front, last := moves[..|moves| - 1], moves[|moves| - 1];
      ClientsFollowTrace(p, regs, front);
      var before := Play(p, front);
      MoveKeepsClients(before.pool, last, Replay(regs, before.out));
      ReplayAppend(regs, before.out, MakeMove(before.pool, last).out);
    }
  }

  /** No registration or disconnection is half done. */
  ghost predicate AtRest(p: Pool) {
    forall c :: !Joining(p, c) && !Leaving(p, c)
  }

  /** When no registration or disconnection is under way, both client tables reflect the registrations. */
  lemma ReflectsAtRest(q: Pool, regs: Registry)
    requires SectionInvariant(q) && ClientsInOrder(q, regs) && IndexFollows(q.shared, regs)
    requires AtRest(q)
    ensures Reflects(q.shared, regs)
  {
    assert q.shared.connected.Keys == Clients(regs);
    forall k | 0 <= k < |regs| ensures regs[k].client in q.shared.connected {
      ClientAt(regs, k);
    }
  }

  lemma FreshPoolInOrder()
    ensures SectionInvariant(Pool(EMPTY, [])) && ClientsInOrder(Pool(EMPTY, []), []) && IndexFollows(EMPTY, [])
  {
    FreshPoolHolds(OneEntry);
    assert Clients([]) == {};
    assert forall c :: !Joining(Pool(EMPTY, []), c);
  }

  /** So in every interleaving without collisions, the client tables are at rest what they are after an atomic run. */
  lemma TablesReflectAtRest(moves: seq<Move>)
    requires NeverBreaks(OneEntry, Pool(EMPTY, []), moves)
    requires AtRest(Play(Pool(EMPTY, []), moves).pool)
    ensures Reflects(Play(Pool(EMPTY, []), moves).pool.shared, Replay([], Play(Pool(EMPTY, []), moves).out))
  {
    var p := Pool(EMPTY, []);
    FreshPoolInOrder();
    ClientsFollowTrace(p, [], moves);
    EveryInterleaving(p, moves);
    IndexFollowsTrace(p, [], moves);
    ReflectsAtRest(Play(p, moves).pool, Replay([], Play(p, moves).out));
  }

  // ---------- every collision can do harm, and only collisions can ----------

  /** Only the tasks `i` and `j` run. */
  ghost predicate RunsOnly(moves: seq<Move>, i: nat, j: nat) {
    forall k :: 0 <= k < |moves| ==> moves[k].Run? && (moves[k].i == i || moves[k].i == j)
  }

  /** A task that was let in, or that leaves. */
  predicate IsHalfDone(t: Task) {
    t.Admitted? || t.Inserted? || t.Unlisted? || t.Done?
  }

  lemma HalfDoneStep(p: Pool, move: Move, j: nat)
    requires move.Run? && move.i < |p.tasks| && IsHalfDone(p.tasks[move.i]) && j < |p.tasks| && IsHalfDone(p.tasks[j])
    ensures !Collides(p, move)
    ensures var q := MakeMove(p, move).pool;
            |q.tasks| == |p.tasks| && IsHalfDone(q.tasks[move.i]) && IsHalfDone(q.tasks[j])
  {
  }

  /** Running tasks that are half done collides with nothing. */
  lemma {:induction false} HalfDoneNeverCollides(p: Pool, moves: seq<Move>, i: nat, j: nat)
    requires RunsOnly(moves, i, j) && i < |p.tasks| && j < |p.tasks| && IsHalfDone(p.tasks[i]) && IsHalfDone(p.tasks[j])
    ensures NeverBreaks(OneEntry, p, moves)
    ensures var q := Play(p, moves).pool;
            |q.tasks| == |p.tasks| && IsHalfDone(q.tasks[i]) && IsHalfDone(q.tasks[j])
    decreases |moves|
  {
    if moves != [] {
      var front, last := moves[..|moves| - 1], moves[|moves| - 1];
      HalfDoneNeverCollides(p, front, i, j);
      HalfDoneStep(Play(p, front).pool, last, i);
      HalfDoneStep(Play(p, front).pool, last, j);
    }
  }

  /** The two tables have parted for `c`: registered twice, connected without being registered, or the other way
      round. */
  ghost predicate Parted(p: Pool, regs: Registry, c: ClientId) {
    || (exists k, l :: 0 <= k < l < |regs| && regs[k].client == c && regs[l].client == c)
    || (c in p.shared.connected && c !in Clients(regs) && !Joining(p, c))
    || (c in Clients(regs) && c !in p.shared.connected && !Leaving(p, c))
  }

  lemma PartedDoNotMatch(p: Pool, regs: Registry, c: ClientId)
    requires Parted(p, regs, c)
    ensures !TablesMatch(p, regs)
  {
    if k, l :| 0 <= k < l < |regs| && regs[k].client == c && regs[l].client == c {
      assert !DistinctClients(regs);
    }
  }

  /** A half-done registration that runs on alone. */
  lemma EnteringAlone(b: Broker, t: Task)
    requires WellFormed(t) && Entering(t).Some?
    ensures var alone := RunAlone(b, t, 0, ALL_SENDS_WORK, NO_STORAGE);
            && alone.out == [Registered(t.m.client, t.m.queries, t.m.tx)]
            && alone.state.connected.Keys == b.connected.Keys + if t.Admitted? then {t.m.client} else {}
  {
    AloneStep(b, t, 0, ALL_SENDS_WORK, NO_STORAGE);
    if t.Admitted? {
      var s := Section(b, t, 0, ALL_SENDS_WORK, NO_STORAGE);
      AloneStep(s.shared, s.task, 0, ALL_SENDS_WORK, NO_STORAGE);
    }
  }

  lemma LeavingAlone(b: Broker, c: ClientId)
    ensures var alone := RunAlone(b, Unlisted(c), 0, ALL_SENDS_WORK, NO_STORAGE);
            alone.out == [Disconnected(c)] && alone.state.connected == b.connected
  {
    AloneStep(b, Unlisted(c), 0, ALL_SENDS_WORK, NO_STORAGE);
  }

  /** One task runs to its end, then another one. */
  lemma OneThenOther(p: Pool, i: nat, j: nat) returns (moves: seq<Move>)
    requires i < |p.tasks| && j < |p.tasks| && i != j && WellFormed(p.tasks[i]) && WellFormed(p.tasks[j])
    requires IsHalfDone(p.tasks[i]) && IsHalfDone(p.tasks[j])
    ensures var one := RunAlone(p.shared, p.tasks[i], 0, ALL_SENDS_WORK, NO_STORAGE);
            var two := RunAlone(one.state, p.tasks[j], 0, ALL_SENDS_WORK, NO_STORAGE);
            Play(p, moves) == Moved(Pool(two.state, p.tasks[i := Done][j := Done]), one.out + two.out)
    ensures RunsOnly(moves, i, j) && NeverBreaks(OneEntry, p, moves)
  {
    var first := RunToEnd(p, i, 0, ALL_SENDS_WORK, NO_STORAGE);
    var second := RunToEnd(Play(p, first).pool, j, 0, ALL_SENDS_WORK, NO_STORAGE);
    moves := first + second;
    PlayAppend(p, first, second);
    HalfDoneNeverCollides(p, moves, i, j);
  }

  /** What the registrations are after two tasks of one client finished. */
  lemma ReplayTwo(regs: Registry, e: Event, f: Event)
    ensures Replay(regs, [e] + [f]) == Record(Record(regs, e), f)
  {
    ReplayOne(regs, e);
    ReplayOne(Record(regs, e), f);
    ReplayAppend(regs, [e], [f]);
  }

  lemma {:induction false} DroppedIsGone(regs: Registry, c: ClientId)
    ensures c !in Clients(Drop(regs, c))
  {
    DropMembers(regs, c);
    forall i | 0 <= i < |Drop(regs, c)| ensures Drop(regs, c)[i].client != c {
      assert Drop(regs, c)[i] in Drop(regs, c);
    }
  }

  /** Two registrations of one client: it ends up registered twice. */
  lemma TwoEntriesPart(regs: Registry, c: ClientId, a: Registration, b: Registration, p: Pool)
    requires a.client == c && b.client == c
    ensures Parted(p, regs + [a] + [b], c)
  {
    var regs' := regs + [a] + [b];
    assert regs'[|regs|] == a && regs'[|regs| + 1] == b;
  }

  /** After every collision, with no further one, it is enough that the two colliding tasks run for the client table
      and the registrations to part. */
  lemma EveryCollisionCanHarm(p: Pool, regs: Registry, move: Move) returns (more: seq<Move>, j: nat)
    requires OneTaskPerClient(p) && Collides(p, move)
    ensures var p', c := MakeMove(p, move).pool, p.tasks[move.i].m.client;
            && j < |p.tasks| && j != move.i && WellFormed(p.tasks[j])
            && (Entering(p.tasks[j]) == Some(c) || p.tasks[j] == Unlisted(c))
            && RunsOnly(more, move.i, j) && NeverBreaks(OneEntry, p', more)
            && Parted(Play(p', more).pool, Replay(regs, Play(p', more).out), c)
  {
    var p', i, c := MakeMove(p, move).pool, move.i, p.tasks[move.i].m.client;
    assert AloneWithClient(p, i);
    j :| 0 <= j < |p.tasks| && j != i && WellFormed(p.tasks[j])
        && (Entering(p.tasks[j]) == Some(c) || p.tasks[j] == Unlisted(c))
         && (p.tasks[i].m.DisconnectClient? ==> Entering(p.tasks[j]) == Some(c));
    assert AloneWithClient(p, j) && p'.tasks[j] == p.tasks[j];
    if p.tasks[i].m.RegisterClient? && p.tasks[j].Unlisted? {
      more := ReentryParts(p', regs, i, j, c);
    } else if p.tasks[i].m.RegisterClient? {
      more := SecondEntryParts(p', regs, i, j, c);
    } else if p.tasks[j].Admitted? {
      more := LeaverParts(p', regs, i, j, c);
    } else {
      more := StrayParts(p', regs, i, j, c);
    }
  }

  /** A client that is connected, not registered and not joining. */
  lemma UnregisteredParts(p: Pool, q: Pool, regs: Registry, i: nat, j: nat, c: ClientId)
    requires i < |p.tasks| && j < |p.tasks| && q.tasks == p.tasks[i := Done][j := Done] && c in q.shared.connected
    requires forall k :: 0 <= k < |p.tasks| && k != i && k != j ==>
               !(p.tasks[k].Inserted? && WellFormed(p.tasks[k]) && p.tasks[k].m.client == c)
    ensures Parted(q, Drop(regs, c), c)
  {
    DroppedIsGone(regs, c);
    forall k | 0 <= k < |q.tasks|
      ensures !(q.tasks[k].Inserted? && WellFormed(q.tasks[k]) && q.tasks[k].m.client == c)
    {
      assert k != i && k != j ==> q.tasks[k] == p.tasks[k];
    }
  }

  /** A registration was let in while another one is under way: the client ends up registered twice. */
  lemma SecondEntryParts(p: Pool, regs: Registry, i: nat, j: nat, c: ClientId) returns (more: seq<Move>)
    requires i < |p.tasks| && j < |p.tasks| && i != j && WellFormed(p.tasks[i]) && WellFormed(p.tasks[j])
    requires p.tasks[i].Admitted? && p.tasks[i].m.client == c && Entering(p.tasks[j]) == Some(c)
    ensures RunsOnly(more, i, j) && NeverBreaks(OneEntry, p, more)
    ensures Parted(Play(p, more).pool, Replay(regs, Play(p, more).out), c)
  {
    var m, b1 := p.tasks[i].m, RunAlone(p.shared, p.tasks[i], 0, ALL_SENDS_WORK, NO_STORAGE).state;
    var e, reg := Registered(m.client, m.queries, m.tx), Registration(m.client, m.queries, m.tx);
    EnteringAlone(p.shared, p.tasks[i]);
    var n := p.tasks[j].m;
    EnteringAlone(b1, p.tasks[j]);
    more := OneThenOther(p, i, j);
    ReplayTwo(regs, e, Registered(n.client, n.queries, n.tx));
    TwoEntriesPart(regs, c, reg, Registration(n.client, n.queries, n.tx), Play(p, more).pool);
  }

  /** A registration was let in while a disconnection is under way: the client ends up connected and not registered. */
  lemma ReentryParts(p: Pool, regs: Registry, i: nat, j: nat, c: ClientId) returns (more: seq<Move>)
    requires i < |p.tasks| && j < |p.tasks| && i != j && WellFormed(p.tasks[i]) && WellFormed(p.tasks[j])
    requires p.tasks[i].Admitted? && p.tasks[i].m.client == c && p.tasks[j] == Unlisted(c)
    requires forall k :: 0 <= k < |p.tasks| && k != i && k != j ==>
               !(p.tasks[k].Inserted? && WellFormed(p.tasks[k]) && p.tasks[k].m.client == c)
    ensures RunsOnly(more, i, j) && NeverBreaks(OneEntry, p, more)
    ensures Parted(Play(p, more).pool, Replay(regs, Play(p, more).out), c)
  {
    var m, b1 := p.tasks[i].m, RunAlone(p.shared, p.tasks[i], 0, ALL_SENDS_WORK, NO_STORAGE).state;
    var e, reg := Registered(m.client, m.queries, m.tx), Registration(m.client, m.queries, m.tx);
    EnteringAlone(p.shared, p.tasks[i]);
    LeavingAlone(b1, c);
    more := OneThenOther(p, i, j);
    ReplayTwo(regs, e, Disconnected(c));
    UnregisteredParts(p, Play(p, more).pool, regs + [reg], i, j, c);
  }

  /** A disconnection was started while a registration is let in: the client ends up connected and not registered. */
  lemma LeaverParts(p: Pool, regs: Registry, i: nat, j: nat, c: ClientId) returns (more: seq<Move>)
    requires i < |p.tasks| && j < |p.tasks| && i != j && WellFormed(p.tasks[j]) && p.tasks[i] == Unlisted(c)
    requires p.tasks[j].Admitted? && p.tasks[j].m.client == c && c !in p.shared.connected
    requires forall k :: 0 <= k < |p.tasks| && k != i && k != j ==>
               p.tasks[k] != Unlisted(c) && !(p.tasks[k].Inserted? && WellFormed(p.tasks[k])
                   && p.tasks[k].m.client == c)
    ensures RunsOnly(more, i, j) && NeverBreaks(OneEntry, p, more)
    ensures Parted(Play(p, more).pool, Replay(regs, Play(p, more).out), c)
  {
    var n := p.tasks[j].m;
    EnteringAlone(p.shared, p.tasks[j]);
    LeavingAlone(RunAlone(p.shared, p.tasks[j], 0, ALL_SENDS_WORK, NO_STORAGE).state, c);
    more := OneThenOther(p, j, i);
    ReplayTwo(regs, Registered(n.client, n.queries, n.tx), Disconnected(c));
    UnregisteredParts(p, Play(p, more).pool, regs + [Registration(n.client, n.queries, n.tx)], j, i, c);
  }

  /** A disconnection was started while a registration is half recorded: the client ends up registered and not
      connected. */
  lemma StrayParts(p: Pool, regs: Registry, i: nat, j: nat, c: ClientId) returns (more: seq<Move>)
    requires i < |p.tasks| && j < |p.tasks| && i != j && WellFormed(p.tasks[j]) && p.tasks[i] == Unlisted(c)
    requires p.tasks[j].Inserted? && p.tasks[j].m.client == c && c !in p.shared.connected
    requires forall k :: 0 <= k < |p.tasks| && k != i && k != j ==>
               p.tasks[k] != Unlisted(c) && !(p.tasks[k].Inserted? && WellFormed(p.tasks[k])
                   && p.tasks[k].m.client == c)
    ensures RunsOnly(more, i, j) && NeverBreaks(OneEntry, p, more)
    ensures Parted(Play(p, more).pool, Replay(regs, Play(p, more).out), c)
  {
    var n := p.tasks[j].m;
    LeavingAlone(p.shared, c);
    EnteringAlone(RunAlone(p.shared, Unlisted(c), 0, ALL_SENDS_WORK, NO_STORAGE).state, p.tasks[j]);
    more := OneThenOther(p, i, j);
    ReplayTwo(regs, Disconnected(c), Registered(n.client, n.queries, n.tx));
    ClientsAppend(Drop(regs, c), Registration(n.client, n.queries, n.tx));
    NobodyLeavesNow(Play(p, more).pool, c);
  }

  lemma NobodyLeavesNow(p: Pool, c: ClientId)
    requires forall k :: 0 <= k < |p.tasks| ==> p.tasks[k] != Unlisted(c)
    ensures !Leaving(p, c)
  {
  }

  /** A move of a pool in order is a collision exactly when some continuation without further collisions parts the
      tables. */
  lemma CollisionsAreWhatParts(p: Pool, regs: Registry, move: Move)
    requires ClientsInOrder(p, regs)
    ensures Collides(p, move) <==>
              exists more :: NeverBreaks(OneEntry, MakeMove(p, move).pool, more)
                             && !TablesMatch(Play(p, [move] + more).pool, Replay(regs, Play(p, [move] + more).out))
  {
    var p', said := MakeMove(p, move).pool, MakeMove(p, move).out;
    if Collides(p, move) {
      var more, _ := EveryCollisionCanHarm(p, Replay(regs, said), move);
      PlayFirst(p, move, more);
      ReplayAppend(regs, said, Play(p', more).out);
      PartedDoNotMatch(Play(p', more).pool, Replay(Replay(regs, said), Play(p', more).out), p.tasks[move.i].m.client);
    } else {
      MoveKeepsClients(p, move, regs);
      forall more | NeverBreaks(OneEntry, p', more)
        ensures TablesMatch(Play(p, [move] + more).pool, Replay(regs, Play(p, [move] + more).out))
      {
        ClientsFollowTrace(p', Replay(regs, said), more);
        PlayFirst(p, move, more);
        ReplayAppend(regs, said, Play(p', more).out);
      }
    }
  }
}

/** The event log when lock sections interleave (src/db/mod.rs:48-108, src/domain/state.rs:432-465). */
module InterleavedLog {
  import opened Ids
  import opened Messages
  import opened EventStore
  import opened StateMachine
  import opened LockSections
  import opened EventLog

  /** The log is as it should be, and every stored event that waits for its acknowledgement is unheard of, one task
      each. */
  ghost predicate LogInOrder(p: Pool, out: seq<Event>) {
    && LogHolds(p.shared, out)
    && (forall i :: 0 <= i < |p.tasks| && p.tasks[i].Stored? ==> Unheard(p.shared, out, p.tasks[i].row))
    && (forall i, j :: 0 <= i < j < |p.tasks| && p.tasks[i].Stored? && p.tasks[j].Stored? ==>
          p.tasks[i].row != p.tasks[j].row)
  }

  /** Sections that have nothing to do with the log. */
  lemma OtherSectionsAreQuiet(b: Broker, t: Task, now: int, net: Net, st: Storage)
    requires WellFormed(t) && !t.Stored? && !(t.Touched? && t.m.RegisterSourceEvent?)
    ensures var s := Section(b, t, now, net, st);
            s.shared.rows == b.rows && s.shared.jobs == b.jobs && SilentOnLog(s.out) && !s.task.Stored?
  {
  }

  lemma UnheardStays(b: Broker, out: seq<Event>, b': Broker, more: seq<Event>, row: SourceEvent)
    requires Unheard(b, out, row) && row in b'.rows && row !in b'.jobs
    requires forall e :: e in more && e.Sent? && e.msg.SourceEventBroadcast? ==> e.msg.event.id != row.id
    ensures Unheard(b', out + more, row)
  {
    forall c ensures Copies(c, row.id, out + more) == 0 {
      CopiesAppend(c, row.id, out, more);
      NoCopies(c, row.id, more);
    }
  }

  lemma QuietMove(p: Pool, out: seq<Event>, p': Pool, more: seq<Event>)
    requires LogInOrder(p, out) && SilentOnLog(more) && p'.shared.rows == p.shared.rows
             && p'.shared.jobs == p.shared.jobs
    requires |p'.tasks| >= |p.tasks|
    requires forall i :: 0 <= i < |p'.tasks| && p'.tasks[i].Stored? ==> i < |p.tasks| && p.tasks[i] == p'.tasks[i]
    ensures LogInOrder(p', out + more)
  {
    QuietStepHolds(p.shared, out, p'.shared, more);
    forall i | 0 <= i < |p'.tasks| && p'.tasks[i].Stored? ensures Unheard(p'.shared, out + more, p'.tasks[i].row) {
      UnheardStays(p.shared, out, p'.shared, more, p.tasks[i].row);
    }
  }

  lemma SaveMove(p: Pool, out: seq<Event>, move: Move)
    requires LogInOrder(p, out) && move.Run? && move.i < |p.tasks|
    requires p.tasks[move.i].Touched? && p.tasks[move.i].m.RegisterSourceEvent?
    ensures LogInOrder(MakeMove(p, move).pool, out + MakeMove(p, move).out)
  {
    var b, p', m := p.shared, MakeMove(p, move).pool, p.tasks[move.i].m;
    var e := NewEvent(m.aggregateId, m.aggregateType, m.payload);
    SaveHolds(b, out, e, move.st);
    SaveAppendsNextRow(b.rows, e, move.st);
    if p'.tasks[move.i].Stored? {
      NewRowIsUnheard(b, out, e, move.st);
    }
    forall i | 0 <= i < |p'.tasks| && p'.tasks[i].Stored? && i != move.i
      ensures Unheard(p'.shared, out, p'.tasks[i].row)
    {
      assert p.tasks[i] == p'.tasks[i];
    }
    assert out + [] == out;
  }

  lemma AckMove(p: Pool, out: seq<Event>, move: Move)
    requires LogInOrder(p, out) && move.Run? && move.i < |p.tasks|
    requires p.tasks[move.i].Stored? && WellFormed(p.tasks[move.i]) && p.tasks[move.i].m.source in p.shared.connected
    ensures LogInOrder(MakeMove(p, move).pool, out + MakeMove(p, move).out)
  {
    var p', more, t := MakeMove(p, move).pool, MakeMove(p, move).out, p.tasks[move.i];
    AckHolds(p.shared, out, t.m.source, t.row, move.net);
    forall i | 0 <= i < |p'.tasks| && p'.tasks[i].Stored? ensures Unheard(p'.shared, out + more, p'.tasks[i].row) {
      assert p.tasks[i] == p'.tasks[i] && i != move.i;
      UnheardStays(p.shared, out, p'.shared, more, p.tasks[i].row);
    }
  }

  lemma BroadcastMove(p: Pool, out: seq<Event>, move: Move)
    requires LogInOrder(p, out) && move.RunJob? && CanMove(p, move)
    ensures LogInOrder(MakeMove(p, move).pool, out + MakeMove(p, move).out)
  {
    var p', more, event := MakeMove(p, move).pool, MakeMove(p, move).out, p.shared.jobs[move.job];
    BroadcastHolds(p.shared, out, move.job, move.order, move.net);
    BroadcastJobsWait(p.shared, out, move.job, move.order, move.net);
    BroadcastSays(p.shared, move.order, SourceEventBroadcast(event), move.net);
    forall i | 0 <= i < |p'.tasks| && p'.tasks[i].Stored? ensures Unheard(p'.shared, out + more, p'.tasks[i].row) {
      if p.tasks[i].row.id == event.id {
        SameIdSameRow(p.shared.rows, p.tasks[i].row, event);
      }
      UnheardStays(p.shared, out, p'.shared, more, p.tasks[i].row);
    }
  }

  lemma MoveKeepsLog(p: Pool, out: seq<Event>, move: Move)
    requires LogInOrder(p, out) && CanMove(p, move)
    ensures LogInOrder(MakeMove(p, move).pool, out + MakeMove(p, move).out)
  {
    var p', more := MakeMove(p, move).pool, MakeMove(p, move).out;
    if move.RunJob? {
      BroadcastMove(p, out, move);
    } else if move.Run? && WellFormed(p.tasks[move.i]) {
      var t := p.tasks[move.i];
      if t.Touched? && t.m.RegisterSourceEvent? {
        SaveMove(p, out, move);
      } else if t.Stored? && t.m.source in p.shared.connected {
        AckMove(p, out, move);
      } else {
        if !t.Stored? {
          OtherSectionsAreQuiet(p.shared, t, move.now, move.net, move.st);
        }
        QuietMove(p, out, p', more);
      }
    } else {
      QuietMove(p, out, p', more);
    }
  }

  /** Under every interleaving of lock sections the event log keeps all its promises: gap-free clocks in commit order,
      committed rows in every acknowledgement and broadcast, at most one copy per client, only after the
      acknowledgement. */
  lemma {:induction false} LogHoldsUnderInterleaving(b: Broker, moves: seq<Move>)
    requires b.rows == [] && b.jobs == [] && IsPlay(Pool(b, []), moves)
    ensures LogHolds(Play(Pool(b, []), moves).pool.shared, Play(Pool(b, []), moves).out)
    ensures LogInOrder(Play(Pool(b, []), moves).pool, Play(Pool(b, []), moves).out)
    decreases |moves|
  {
    if moves == [] {
      assert forall c, id :: Copies(c, id, []) == 0;
    } else {
      var front, last := moves[..|moves| - 1], moves[|moves| - 1];
      LogHoldsUnderInterleaving(b, front);
      MoveKeepsLog(Play(Pool(b, []), front).pool, Play(Pool(b, []), front).out, last);
    }
  }
}

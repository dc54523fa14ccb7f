/** The event log, its acknowledgements and its broadcasts over whole runs
    (src/db/mod.rs:48-108, src/domain/state.rs:432-465). */
module EventLog {
  import opened Ids
  import opened Messages
  import opened EventStore
  import opened StateMachine

  predicate IsAck(e: Event, id: EventId) {
    e.Sent? && e.msg.SourceEventRegistered? && e.msg.eventId == id
  }

  predicate IsCopy(e: Event, c: ClientId, id: EventId) {
    e.Sent? && e.msg.SourceEventBroadcast? && e.to == c && e.msg.event.id == id
  }

  predicate IsLogEvent(e: Event) {
    e.Sent? && (e.msg.SourceEventRegistered? || e.msg.SourceEventBroadcast?)
  }

  /** How often `c` was sent the event `id`. */
  function Copies(c: ClientId, id: EventId, out: seq<Event>): nat {
    if out == [] then 0
    else Copies(c, id, out[..|out| - 1]) + if IsCopy(out[|out| - 1], c, id) then 1 else 0
  }

  lemma {:induction false} CopiesAppend(c: ClientId, id: EventId, out: seq<Event>, more: seq<Event>)
    ensures Copies(c, id, out + more) == Copies(c, id, out) + Copies(c, id, more)
  {
    if more == [] {
      assert out + more == out;
    } else {
      assert (out + more)[..|out + more| - 1] == out + more[..|more| - 1];
      CopiesAppend(c, id, out, more[..|more| - 1]);
    }
  }

  lemma {:induction false} NoCopies(c: ClientId, id: EventId, out: seq<Event>)
    requires forall e :: e in out ==> !IsCopy(e, c, id)
    ensures Copies(c, id, out) == 0
  {
    if out != [] {
      NoCopies(c, id, out[..|out| - 1]);
    }
  }

  ghost predicate Acked(out: seq<Event>, id: EventId) {
    exists j :: 0 <= j < |out| && IsAck(out[j], id)
  }

  /** The row with this id and clock is committed. */
  predicate Committed(rows: seq<SourceEvent>, id: EventId, clock: nat) {
    exists i | 0 <= i < |rows| :: rows[i].id == id && rows[i].clock == clock
  }

  /** What the log promises about one event of the trace: acknowledgements and broadcasts carry a committed row,
      a broadcast row is not waiting any more, and a broadcast comes after its acknowledgement. */
  ghost predicate Justified(b: Broker, out: seq<Event>, i: nat)
    requires i < |out|
  {
    && (out[i].Sent? && out[i].msg.SourceEventRegistered? ==> Committed(b.rows, out[i].msg.eventId, out[i].msg.clock))
    && (out[i].Sent? && out[i].msg.SourceEventBroadcast? ==>
          && out[i].msg.event in b.rows && out[i].msg.event !in b.jobs
          && Acked(out[..i], out[i].msg.event.id))
  }

  ghost predicate JobsWait(b: Broker, out: seq<Event>) {
    && (forall i :: 0 <= i < |b.jobs| ==> b.jobs[i] in b.rows && Acked(out, b.jobs[i].id))
    && (forall i, j :: 0 <= i < j < |b.jobs| ==> b.jobs[i] != b.jobs[j])
  }

  ghost predicate AtMostOneCopy(out: seq<Event>) {
    forall c, id :: Copies(c, id, out) <= 1
  }

  /** The state of the log after trace `out`. */
  ghost predicate LogHolds(b: Broker, out: seq<Event>) {
    && GapFree(b.rows)
    && (forall i :: 0 <= i < |out| ==> Justified(b, out, i))
    && JobsWait(b, out)
    && AtMostOneCopy(out)
  }

  /** Rows are determined by their ids. */
  lemma SameIdSameRow(rows: seq<SourceEvent>, a: SourceEvent, b: SourceEvent)
    requires GapFree(rows) && a in rows && b in rows && a.id == b.id
    ensures a == b
  {
    var i :| 0 <= i < |rows| && rows[i] == a;
    var j :| 0 <= j < |rows| && rows[j] == b;
  }

  lemma AckedMore(out: seq<Event>, more: seq<Event>, id: EventId)
    requires Acked(out, id)
    ensures Acked(out + more, id)
  {
    var j :| 0 <= j < |out| && IsAck(out[j], id);
    assert (out + more)[j] == out[j];
  }

  /** An event with no copy in the trace so far: no broadcast of it happened. */
  lemma {:induction false} CopyExists(c: ClientId, id: EventId, out: seq<Event>) returns (i: nat)
    requires Copies(c, id, out) > 0
    ensures i < |out| && IsCopy(out[i], c, id)
  {
    if IsCopy(out[|out| - 1], c, id) {
      i := |out| - 1;
    } else {
      i := CopyExists(c, id, out[..|out| - 1]);
    }
  }

  // ---------- steps ----------

  ghost predicate SilentOnLog(more: seq<Event>) {
    forall e :: e in more ==> !IsLogEvent(e)
  }

  lemma QuietStepHolds(b: Broker, out: seq<Event>, b': Broker, more: seq<Event>)
    requires LogHolds(b, out) && b'.rows == b.rows && b'.jobs == b.jobs && SilentOnLog(more)
    ensures LogHolds(b', out + more)
  {
    forall i | 0 <= i < |out + more| ensures Justified(b', out + more, i) {
      if i < |out| {
        assert Justified(b, out, i);
        assert (out + more)[..i] == out[..i];
      } else {
        assert (out + more)[i] in more;
      }
    }
    forall i | 0 <= i < |b.jobs| ensures Acked(out + more, b.jobs[i].id) {
      AckedMore(out, more, b.jobs[i].id);
    }
    forall c, id ensures Copies(c, id, out + more) <= 1 {
      CopiesAppend(c, id, out, more);
      NoCopies(c, id, more);
    }
  }

  /** A commit changes nothing about earlier events. */
  lemma SaveHolds(b: Broker, out: seq<Event>, e: NewEvent, st: Storage)
    requires LogHolds(b, out)
    ensures LogHolds(b.(rows := Save(b.rows, e, st).0), out)
  {
    var b' := b.(rows := Save(b.rows, e, st).0);
    SaveAppendsNextRow(b.rows, e, st);
    forall i | 0 <= i < |out| ensures Justified(b', out, i) {
      assert Justified(b, out, i);
      OldEventStaysJustified(b, b', out, i);
    }
    forall i | 0 <= i < |b.jobs| ensures b.jobs[i] in b'.rows {
      assert b.jobs[i] in b.rows;
    }
  }

  /** The row has not been broadcast and does not wait to be. */
  ghost predicate Unheard(b: Broker, out: seq<Event>, row: SourceEvent) {
    row in b.rows && row !in b.jobs && forall c :: Copies(c, row.id, out) == 0
  }

  /** Only committed rows are broadcast, and not those that still wait for it. */
  lemma CopiesAreOfRows(b: Broker, out: seq<Event>, c: ClientId, id: EventId)
    requires LogHolds(b, out)
    ensures Copies(c, id, out) == 0 || exists row :: row in b.rows && row.id == id && row !in b.jobs
  {
    if Copies(c, id, out) > 0 {
      var i := CopyExists(c, id, out);
      assert Justified(b, out, i);
    }
  }

  /** A new row is unheard of. */
  lemma NewRowIsUnheard(b: Broker, out: seq<Event>, e: NewEvent, st: Storage)
    requires LogHolds(b, out) && Save(b.rows, e, st).1.Saved?
    ensures Unheard(b.(rows := Save(b.rows, e, st).0), out, Save(b.rows, e, st).1.event)
    ensures Save(b.rows, e, st).1.event !in b.rows
  {
    var row := Save(b.rows, e, st).1.event;
    SaveAppendsNextRow(b.rows, e, st);
    assert Save(b.rows, e, st).0[|b.rows|] == row;
    assert forall x :: x in b.rows ==> x.id != row.id;
    forall c ensures Copies(c, row.id, out) == 0 {
      CopiesAreOfRows(b, out, c, row.id);
    }
  }

  lemma {:induction false} CopyCounts(out: seq<Event>, i: nat, c: ClientId, id: EventId)
    requires i < |out| && IsCopy(out[i], c, id)
    ensures Copies(c, id, out) > 0
  {
    if i < |out| - 1 {
      CopyCounts(out[..|out| - 1], i, c, id);
    }
  }

  /** An acknowledgement of an unheard row, which starts to wait for its broadcast. */
  lemma AckHolds(b: Broker, out: seq<Event>, source: ClientId, row: SourceEvent, net: Net)
    requires LogHolds(b, out) && Unheard(b, out, row) && source in b.connected
    ensures LogHolds(b.(jobs := b.jobs + [row]), out + Notify(b, source, SourceEventRegistered(row.id, row.clock), net))
  {
    var b', more := b.(jobs := b.jobs + [row]), Notify(b, source, SourceEventRegistered(row.id, row.clock), net);
    var out' := out + more;
    forall i | 0 <= i < |out'| ensures Justified(b', out', i) {
      if i < |out| {
        assert Justified(b, out, i);
        assert out'[..i] == out[..i];
        if out[i].Sent? && out[i].msg.SourceEventBroadcast? && out[i].msg.event == row {
          CopyCounts(out, i, out[i].to, row.id);
        }
      } else {
        var k :| 0 <= k < |b.rows| && b.rows[k] == row;
      }
    }
    assert IsAck(out'[|out|], row.id);
    forall i | 0 <= i < |b.jobs| ensures Acked(out', b.jobs[i].id) {
      AckedMore(out, more, b.jobs[i].id);
    }
    forall c, id ensures Copies(c, id, out') <= 1 {
      CopiesAppend(c, id, out, more);
      NoCopies(c, id, more);
    }
  }

  lemma PublishHolds(b: Broker, out: seq<Event>, m: ClientMessage, net: Net, st: Storage)
    requires LogHolds(b, out) && m.RegisterSourceEvent?
    ensures var r := Publish(b, m, net, st); LogHolds(r.state, out + r.out)
  {
    var e := NewEvent(m.aggregateId, m.aggregateType, m.payload);
    var (rows, result) := Save(b.rows, e, st);
    SaveHolds(b, out, e, st);
    if result.Saved? && m.source in b.connected {
      NewRowIsUnheard(b, out, e, st);
      AckHolds(b.(rows := rows), out, m.source, result.event, net);
    } else {
      assert out + [] == out;
    }
  }

  lemma OldEventStaysJustified(b: Broker, b': Broker, out: seq<Event>, i: nat)
    requires i < |out| && Justified(b, out, i)
    requires b.rows <= b'.rows
    requires forall j :: 0 <= j < |b'.jobs| ==> b'.jobs[j] in b.jobs || b'.jobs[j] !in b.rows
    ensures Justified(b', out, i)
  {
    var e := out[i];
    if e.Sent? && e.msg.SourceEventRegistered? {
      var k :| 0 <= k < |b.rows| && b.rows[k].id == e.msg.eventId && b.rows[k].clock == e.msg.clock;
      assert b'.rows[k] == b.rows[k];
    }
    if e.Sent? && e.msg.SourceEventBroadcast? {
      var k :| 0 <= k < |b.rows| && b.rows[k] == e.msg.event;
      assert b'.rows[k] == b.rows[k];
    }
  }

  /** A broadcast sends the event to every connected client once, and sends nothing else. */
  lemma {:induction false} SendAllIsOnce(b: Broker, order: seq<ClientId>, event: SourceEvent, net: Net, c: ClientId)
    requires forall i :: 0 <= i < |order| ==> order[i] in b.connected
    requires Distinct(order)
    ensures Copies(c, event.id, SendAll(b, order, SourceEventBroadcast(event), net)) == if c in order then 1 else 0
    ensures forall e :: e in SendAll(b, order, SourceEventBroadcast(event), net) ==>
              e.Sent? && e.msg == SourceEventBroadcast(event) && e.to in b.connected && e.tx == b.connected[e.to].tx
  {
    if order != [] {
      var front, last := order[..|order| - 1], order[|order| - 1];
      var msg := SourceEventBroadcast(event);
      SendAllIsOnce(b, front, event, net, c);
      CopiesAppend(c, event.id, SendAll(b, front, msg, net), Notify(b, last, msg, net));
      var e := Sent(last, b.connected[last].tx, msg, net(last, b.connected[last].tx, msg));
      assert [e][..0] == [];
      assert Copies(c, event.id, [e]) == if c == last then 1 else 0;
      assert order == front + [last];
    }
  }

  lemma CopyIsJustified(b: Broker, out: seq<Event>, i: nat, event: SourceEvent)
    requires i < |out| && out[i].Sent? && out[i].msg == SourceEventBroadcast(event)
    requires event in b.rows && event !in b.jobs && Acked(out[..i], event.id)
    ensures Justified(b, out, i)
  {
  }

  lemma BroadcastJustified(b: Broker, out: seq<Event>, job: nat, order: seq<ClientId>, net: Net, i: nat)
    requires LogHolds(b, out) && job < |b.jobs| && Lists(order, b.connected.Keys)
    requires var r := BroadcastWith(b, job, order, net); |out| <= i < |out + r.out|
    ensures var r := BroadcastWith(b, job, order, net); Justified(r.state, out + r.out, i)
  {
    var r, event := BroadcastWith(b, job, order, net), b.jobs[job];
    var out' := out + r.out;
    assert forall k :: 0 <= k < |order| ==> order[k] in order;
    assert out'[i] in r.out;
    SendAllIsOnce(b, order, event, net, ClientId(""));
    AckedMore(out, r.out[..i - |out|], event.id);
    assert out'[..i] == out + r.out[..i - |out|];
    BroadcastJobsWait(b, out, job, order, net);
    CopyIsJustified(r.state, out', i, event);
  }

  lemma BroadcastJobsWait(b: Broker, out: seq<Event>, job: nat, order: seq<ClientId>, net: Net)
    requires JobsWait(b, out) && job < |b.jobs|
    ensures var r := BroadcastWith(b, job, order, net);
            JobsWait(r.state, out + r.out) && b.jobs[job] !in r.state.jobs
            && forall i :: 0 <= i < |r.state.jobs| ==> r.state.jobs[i] in b.jobs
  {
    var r := BroadcastWith(b, job, order, net);
    forall i | 0 <= i < |r.state.jobs|
      ensures r.state.jobs[i] in b.rows && Acked(out + r.out, r.state.jobs[i].id) && r.state.jobs[i] in b.jobs
    {
      var k := if i < job then i else i + 1;
      assert r.state.jobs[i] == b.jobs[k];
      AckedMore(out, r.out, b.jobs[k].id);
    }
  }

  lemma BroadcastCopies(b: Broker, out: seq<Event>, job: nat, order: seq<ClientId>, net: Net, c: ClientId, id: EventId)
    requires LogHolds(b, out) && job < |b.jobs| && Lists(order, b.connected.Keys)
    ensures Copies(c, id, out + BroadcastWith(b, job, order, net).out) <= 1
  {
    var r, event := BroadcastWith(b, job, order, net), b.jobs[job];
    assert forall k :: 0 <= k < |order| ==> order[k] in order;
    CopiesAppend(c, id, out, r.out);
    SendAllIsOnce(b, order, event, net, c);
    if id == event.id {
      NotSentBefore(b, out, event, c);
    } else {
      NoCopies(c, id, r.out);
    }
  }

  lemma BroadcastHolds(b: Broker, out: seq<Event>, job: nat, order: seq<ClientId>, net: Net)
    requires LogHolds(b, out) && job < |b.jobs| && Lists(order, b.connected.Keys)
    ensures var r := BroadcastWith(b, job, order, net); LogHolds(r.state, out + r.out)
  {
    var r := BroadcastWith(b, job, order, net);
    BroadcastJobsWait(b, out, job, order, net);
    forall i: nat | i < |out + r.out| ensures Justified(r.state, out + r.out, i) {
      if i < |out| {
        assert (out + r.out)[..i] == out[..i];
        OldEventStaysJustified(b, r.state, out, i);
      } else {
        BroadcastJustified(b, out, job, order, net, i);
      }
    }
    forall c, id ensures Copies(c, id, out + r.out) <= 1 {
      BroadcastCopies(b, out, job, order, net, c, id);
    }
  }

  lemma NotSentBefore(b: Broker, out: seq<Event>, event: SourceEvent, c: ClientId)
    requires LogHolds(b, out) && event in b.jobs
    ensures Copies(c, event.id, out) == 0
  {
    CopiesAreOfRows(b, out, c, event.id);
    forall row | row in b.rows && row.id == event.id ensures row == event {
      SameIdSameRow(b.rows, row, event);
    }
  }

  lemma StepHolds(limits: Limits, s: System, out: seq<Event>, step: Step)
    requires LogHolds(s.broker, out) && Enabled(limits, s, step)
    ensures LogHolds(Apply(s, step).next.broker, out + Apply(s, step).out)
  {
    var b, a := s.broker, Apply(s, step);
    match step
    case Receive(m, net, st) =>
      if m.RegisterSourceEvent? {
        var b1 := Touch(b, m.Source(), s.now);
        QuietStepHolds(b, out, b1, []);
        assert out + [] == out;
        PublishHolds(b1, out, m, net, st);
      } else {
        OthersKeepLog(Touch(b, m.Source(), s.now), m, s.now, net, st);
        QuietStepHolds(b, out, a.next.broker, a.out);
      }
    case Tick(olds, expired, net) =>
      var probed := ProbeAll(b, olds, s.now, net);
      ProbesSay(b, olds, s.now, net);
      ExpirySays(probed.state, expired, net);
      ProbeAllKeepsRequests(b, olds, s.now, net);
      ExpireAllKeepsClients(probed.state, expired, net);
      QuietStepHolds(b, out, a.next.broker, a.out);
    case Broadcast(job, order, net) => BroadcastHolds(b, out, job, order, net);
    case Advance(_) => QuietStepHolds(b, out, a.next.broker, a.out);
  }

  /** In every run from a fresh broker, after any mix of successful and failed saves: clocks are exactly 1..n in
      commit order and ids unique; every acknowledgement and broadcast carries a committed row; each event reaches
      each client at most once over the whole run, and only after its acknowledgement was attempted. */
  lemma {:induction false} LogHoldsInEveryRun(limits: Limits, t: int, steps: seq<Step>)
    requires IsRun(limits, Start(t), steps)
    ensures LogHolds(Exec(Start(t), steps).next.broker, Exec(Start(t), steps).out)
    decreases |steps|
  {
    if steps == [] {
      assert forall c, id :: Copies(c, id, []) == 0;
    } else {
      var front := steps[..|steps| - 1];
      LogHoldsInEveryRun(limits, t, front);
      StepHolds(limits, Exec(Start(t), front).next, Exec(Start(t), front).out, steps[|steps| - 1]);
    }
  }

  /** When a broadcast task runs, every client connected at that time is sent the event exactly once, and nobody else
      is. */
  lemma BroadcastReachesEachClientOnce(limits: Limits, s: System, step: Step, c: ClientId)
    requires step.Broadcast? && Enabled(limits, s, step)
    ensures Copies(c, s.broker.jobs[step.job].id, Apply(s, step).out) == if c in s.broker.connected then 1 else 0
  {
    assert forall i :: 0 <= i < |step.order| ==> step.order[i] in step.order;
    SendAllIsOnce(s.broker, step.order, s.broker.jobs[step.job], step.net, c);
  }

  /** A publication is saved exactly when the store accepts it, whether or not its source is still connected; it is
      acknowledged and queued for broadcast exactly when it was saved and its source is. */
  lemma SavedIsAckedAndQueued(b: Broker, m: ClientMessage, net: Net, st: Storage)
    requires m.RegisterSourceEvent? && GapFree(b.rows)
    ensures var r := Publish(b, m, net, st);
            if r.state.rows != b.rows && m.source in b.connected
            then && r.state.jobs == b.jobs + [r.state.rows[|b.rows|]]
                 && |r.out| == 1 && r.out[0].Sent? && r.out[0].to == m.source
                     && IsAck(r.out[0], r.state.rows[|b.rows|].id)
            else r.state.jobs == b.jobs && r.out == []
    ensures Publish(b, m, net, st).state.rows != b.rows <==>
              && st.begins && st.inserts && st.commits
              && 3 <= |m.aggregateType| <= 254 && forall i :: 0 <= i < |b.rows| ==> b.rows[i].id != st.id
  {
    SaveSucceedsExactly(b.rows, NewEvent(m.aggregateId, m.aggregateType, m.payload), st);
    SaveAppendsNextRow(b.rows, NewEvent(m.aggregateId, m.aggregateType, m.payload), st);
  }

  /** The row holds what the client published. */
  predicate HoldsContentOf(row: SourceEvent, m: ClientMessage) {
    && m.RegisterSourceEvent?
    && row.aggregateId == m.aggregateId && row.aggregateType == m.aggregateType && row.payload == m.payload
  }

  /** A publication appends at most one row, which holds its content, the generated id and the generated date. */
  lemma PublicationIsStored(b: Broker, m: ClientMessage, net: Net, st: Storage)
    requires m.RegisterSourceEvent?
    ensures var rows := Publish(b, m, net, st).state.rows;
            rows == b.rows
            || (&& |rows| == |b.rows| + 1 && rows[..|b.rows|] == b.rows
                && HoldsContentOf(rows[|b.rows|], m)
                && rows[|b.rows|].id == st.id && rows[|b.rows|].createdAt == st.createdAt)
  {
  }

  /** Steps other than publications leave the rows alone. */
  lemma StepRows(s: System, step: Step)
    ensures var rows, rows' := s.broker.rows, Apply(s, step).next.broker.rows;
            rows' == rows
            || (&& |rows'| == |rows| + 1 && rows'[..|rows|] == rows
                && step.Receive? && HoldsContentOf(rows'[|rows|], step.m)
                && rows'[|rows|].id == step.st.id && rows'[|rows|].createdAt == step.st.createdAt)
  {
    match step
    case Receive(m, net, st) =>
      var b1 := Touch(s.broker, m.Source(), s.now);
      if m.RegisterSourceEvent? {
        PublicationIsStored(b1, m, net, st);
      } else {
        OthersKeepLog(b1, m, s.now, net, st);
      }
    case Tick(olds, expired, net) =>
      ProbeAllKeepsRequests(s.broker, olds, s.now, net);
      ExpireAllKeepsClients(ProbeAll(s.broker, olds, s.now, net).state, expired, net);
    case _ =>
  }

  /** Every row was committed by one step of the run, which took a publication with its content. */
  lemma {:induction false} RowsComeFromPublications(s: System, steps: seq<Step>, i: nat) returns (k: nat)
    requires |s.broker.rows| <= i < |Exec(s, steps).next.broker.rows|
    ensures k < |steps| && |Exec(s, steps[..k]).next.broker.rows| == i
    ensures var row := Exec(s, steps).next.broker.rows[i];
            && steps[k].Receive? && HoldsContentOf(row, steps[k].m)
            && row.id == steps[k].st.id && row.createdAt == steps[k].st.createdAt
    decreases |steps|
  {
    var front, last := steps[..|steps| - 1], steps[|steps| - 1];
    var before := Exec(s, front).next;
    StepRows(before, last);
    if i < |before.broker.rows| {
      assert Exec(s, steps).next.broker.rows[i] == before.broker.rows[i] by {
        assert Apply(before, last).next.broker.rows[..|before.broker.rows|] == before.broker.rows;
      }
      k := RowsComeFromPublications(s, front, i);
      assert front[..k] == steps[..k];
    } else {
      k := |steps| - 1;
    }
  }

  /** So every broadcast event holds the content of a publication that was received. */
  lemma BroadcastsComeFromPublications(limits: Limits, t: int, steps: seq<Step>, i: nat) returns (k: nat)
    requires IsRun(limits, Start(t), steps) && i < |Exec(Start(t), steps).out|
    requires Exec(Start(t), steps).out[i].Sent? && Exec(Start(t), steps).out[i].msg.SourceEventBroadcast?
    ensures k < |steps| && steps[k].Receive? && HoldsContentOf(Exec(Start(t), steps).out[i].msg.event, steps[k].m)
  {
    LogHoldsInEveryRun(limits, t, steps);
    var r := Exec(Start(t), steps);
    assert Justified(r.next.broker, r.out, i);
    var j :| 0 <= j < |r.next.broker.rows| && r.next.broker.rows[j] == r.out[i].msg.event;
    k := RowsComeFromPublications(Start(t), steps, j);
  }
}

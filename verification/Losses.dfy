/** Requests that get no word when lock sections interleave, and which interleavings have none
    (src/domain/state.rs:227-342, src/domain/state.rs:480-484). */
module Losses {
  import opened Ids
  import opened Messages
  import opened QueryHandlers
  import opened EventStore
  import opened StateMachine
  import opened Requests
  import opened LockSections
  import opened Interleavings
  import opened Plays
  import opened Races

  // ---------- what becomes of a request ----------

  /** The responder `c` was sent the request. */
  ghost predicate AskSent(out: seq<Event>, m: ClientMessage, c: ClientId)
    requires m.QueryRequest?
  {
    exists tx :: Sent(c, tx, Ask(m), true) in out
  }

  /** The request was sent to a responder and recorded. */
  ghost predicate PassedOn(out: seq<Event>, m: ClientMessage)
    requires m.QueryRequest?
  {
    exists o :: Dispatched(o) in out && IsDispatchOf(o, m) && AskSent(out, m, o.responder)
  }

  /** The requester was sent a refusal on its channel. */
  ghost predicate Refused(out: seq<Event>, m: ClientMessage, tx: Tx)
    requires m.QueryRequest?
  {
    exists ok :: Sent(m.requester, tx, NotFound(m), ok) in out || Sent(m.requester, tx, Duplicated(m), ok) in out
  }

  /** Task `i` looks at an open request that it repeats. */
  ghost predicate LooksAtCopy(p: Pool, i: nat) {
    && i < |p.tasks| && p.tasks[i].Looked? && p.tasks[i].m.QueryRequest?
    && p.tasks[i].m.requestId in p.shared.ongoing && p.shared.ongoing[p.tasks[i].m.requestId].IsSame(p.tasks[i].m)
  }

  /** The open request `r` was answered or given up, and only waits to be dropped. */
  ghost predicate Dropping(p: Pool, r: RequestId) {
    Delivered(r) in p.tasks || Noticed(r) in p.tasks
  }

  /** A request repeats one that only waits to be dropped. */
  ghost predicate Swallows(p: Pool, move: Move) {
    move.Run? && LooksAtCopy(p, move.i) && Dropping(p, p.tasks[move.i].m.requestId)
  }

  ghost predicate NeverSwallows(p: Pool, moves: seq<Move>)
    decreases |moves|
  {
    moves == [] || (NeverSwallows(p, moves[..|moves| - 1])
        && !Swallows(Play(p, moves[..|moves| - 1]).pool, moves[|moves| - 1]))
  }

  /** At some move of the play, task `i` found that its request repeats one that still waits for its answer. */
  ghost predicate WasCopy(p: Pool, moves: seq<Move>, i: nat) {
    exists k :: 0 <= k < |moves| && FoundCopyAt(p, moves, i, k)
  }

  ghost predicate FoundCopyAt(p: Pool, moves: seq<Move>, i: nat, k: nat)
    requires k < |moves|
  {
    var before := Play(p, moves[..k]).pool;
    && moves[k].Run? && moves[k].i == i
    && LooksAtCopy(before, i) && !Dropping(before, before.tasks[i].m.requestId)
  }

  /** How far a request got after the events `out`; once its task is done, it was passed on, refused,
      or a copy of a request that still waits for its answer. */
  ghost predicate OnItsWay(t: Task, out: seq<Event>, m: ClientMessage, tx: Tx, copy: bool)
    requires m.QueryRequest?
  {
    match t
    case Looked(m', tx') => m' == m && tx' == Some(tx)
    case Unique(m', tx') => m' == m && tx' == Some(tx)
    case Chose(m', tx', _) => m' == m && tx' == Some(tx)
    case Asked(m', c) => m' == m && AskSent(out, m, c)
    case Done => PassedOn(out, m) || Refused(out, m, tx) || copy
    case _ => false
  }

  lemma WordsStay(out: seq<Event>, more: seq<Event>, m: ClientMessage, tx: Tx)
    requires m.QueryRequest?
    ensures forall c :: AskSent(out, m, c) || AskSent(more, m, c) ==> AskSent(out + more, m, c)
    ensures PassedOn(out, m) ==> PassedOn(out + more, m)
    ensures Refused(out, m, tx) || Refused(more, m, tx) ==> Refused(out + more, m, tx)
  {
    forall c | AskSent(out, m, c) || AskSent(more, m, c) ensures AskSent(out + more, m, c) {
      var tx' :| Sent(c, tx', Ask(m), true) in out || Sent(c, tx', Ask(m), true) in more;
      assert Sent(c, tx', Ask(m), true) in out + more;
    }
    if PassedOn(out, m) {
      var o :| Dispatched(o) in out && IsDispatchOf(o, m) && AskSent(out, m, o.responder);
      assert Dispatched(o) in out + more;
    }
    if Refused(out, m, tx) || Refused(more, m, tx) {
      var words := if Refused(out, m, tx) then out else more;
      var ok :| Sent(m.requester, tx, NotFound(m), ok) in words || Sent(m.requester, tx, Duplicated(m), ok) in words;
      assert Sent(m.requester, tx, NotFound(m), ok) in out + more
          || Sent(m.requester, tx, Duplicated(m), ok) in out + more;
    }
  }

  lemma CopyStays(p: Pool, moves: seq<Move>, i: nat)
    requires moves != [] && WasCopy(p, moves[..|moves| - 1], i)
    ensures WasCopy(p, moves, i)
  {
    var front := moves[..|moves| - 1];
    var k :| 0 <= k < |front| && FoundCopyAt(p, front, i, k);
    assert front[..k] == moves[..k];
    assert FoundCopyAt(p, moves, i, k);
  }

  /** A request found to be a copy is noted as one. */
  lemma CopyNoted(p: Pool, moves: seq<Move>, i: nat)
    requires moves != []
    requires var front, last := moves[..|moves| - 1], moves[|moves| - 1]; !Swallows(Play(p, front).pool, last)
    ensures WasCopy(p, moves[..|moves| - 1], i) ==> WasCopy(p, moves, i)
    ensures var front, last := moves[..|moves| - 1], moves[|moves| - 1];
            last.Run? && last.i == i && LooksAtCopy(Play(p, front).pool, i) ==> WasCopy(p, moves, i)
  {
    var front, last := moves[..|moves| - 1], moves[|moves| - 1];
    if WasCopy(p, front, i) {
      CopyStays(p, moves, i);
    }
    if last.Run? && last.i == i && LooksAtCopy(Play(p, front).pool, i) {
      assert FoundCopyAt(p, moves, i, |front|);
    }
  }

  lemma OnItsWayStill(t: Task, out: seq<Event>, m: ClientMessage, tx: Tx, copy: bool, copy': bool)
    requires m.QueryRequest? && OnItsWay(t, out, m, tx, copy) && (copy ==> copy')
    ensures OnItsWay(t, out, m, tx, copy')
  {
  }

  /** What one section makes of a request that found its requester connected. */
  lemma RequestSection(b: Broker, t: Task, now: int, net: Net, st: Storage, tx: Tx)
    requires WellFormed(t) && (t.Looked? || t.Unique? || t.Chose?) && t.requester == Some(tx)
    requires t.Chose? ==> t.responder in b.connected
    ensures var s := Section(b, t, now, net, st);
            match s.task
            case Unique(m', tx') => t.Looked? && m' == t.m && tx' == Some(tx)
            case Chose(m', tx', _) => t.Unique? && m' == t.m && tx' == Some(tx)
            case Asked(m', c) => t.Chose? && m' == t.m && AskSent(s.out, t.m, c)
            case Done => Refused(s.out, t.m, tx)
                         || (t.Looked? && t.m.requestId in b.ongoing && b.ongoing[t.m.requestId].IsSame(t.m))
            case _ => false
  {
    var s := Section(b, t, now, net, st);
    match t
    case Looked(m, _) =>
      if s.out != [] {
        assert s.out[0] == Sent(m.requester, tx, Duplicated(m), net(m.requester, tx, Duplicated(m)));
      }
    case Unique(m, _) =>
      SelectReturnsMember(b.handlers, b.cursor, m.queryId);
      if s.out != [] {
        assert s.out[0] == Sent(m.requester, tx, NotFound(m), net(m.requester, tx, NotFound(m)));
      }
    case Chose(m, _, c) =>
      if s.task.Done? {
        assert s.out[1] == Sent(m.requester, tx, NotFound(m), net(m.requester, tx, NotFound(m)));
      } else {
        assert s.out[0] == Sent(c, b.connected[c].tx, Ask(m), true);
      }
  }

  lemma RecordingPassesOn(b: Broker, m: ClientMessage, c: ClientId, now: int, net: Net, st: Storage, out: seq<Event>)
    requires m.QueryRequest? && AskSent(out, m, c)
    ensures PassedOn(out + Section(b, Task.Asked(m, c), now, net, st).out, m)
  {
    var o := Ongoing(m.requestId, m.queryId, m.parameters, m.requester, c, now);
    var out' := out + Section(b, Task.Asked(m, c), now, net, st).out;
    WordsStay(out, Section(b, Task.Asked(m, c), now, net, st).out, m, Tx(0));
    assert out'[|out|] == Dispatched(o);
  }

  /** One section of the request's own task. */
  lemma SectionKeepsOnItsWay(b: Broker, t: Task, now: int, net: Net, st: Storage, out: seq<Event>, m: ClientMessage,
                             tx: Tx, copy: bool)
    requires m.QueryRequest? && OnItsWay(t, out, m, tx, copy) && (t.Chose? ==> t.responder in b.connected)
    requires t.Looked? && m.requestId in b.ongoing && b.ongoing[m.requestId].IsSame(m) ==> copy
    ensures WellFormed(t)
    ensures var s := Section(b, t, now, net, st); OnItsWay(s.task, out + s.out, m, tx, copy)
  {
    var s := Section(b, t, now, net, st);
    WordsStay(out, s.out, m, tx);
    match t
    case Asked(_, c) => RecordingPassesOn(b, m, c, now, net, st, out);
    case Done =>
    case _ =>
      RequestSection(b, t, now, net, st, tx);
  }

  /** One move of the play. */
  lemma MoveKeepsOnItsWay(p: Pool, move: Move, i: nat, out: seq<Event>, m: ClientMessage, tx: Tx, copy: bool)
    requires m.QueryRequest? && i < |p.tasks| && OnItsWay(p.tasks[i], out, m, tx, copy) && RespondersConnected(p)
    requires move.Run? && move.i == i && LooksAtCopy(p, i) ==> copy
    ensures i < |MakeMove(p, move).pool.tasks|
    ensures OnItsWay(MakeMove(p, move).pool.tasks[i], out + MakeMove(p, move).out, m, tx, copy)
  {
    WordsStay(out, MakeMove(p, move).out, m, tx);
    if move.Run? && move.i == i {
      SectionKeepsOnItsWay(p.shared, p.tasks[i], move.now, move.net, move.st, out, m, tx, copy);
    }
  }

  lemma {:induction false} RequestStaysOnItsWay(p: Pool, moves: seq<Move>, i: nat, m: ClientMessage, tx: Tx)
    requires SectionInvariant(p) && RespondersConnected(p) && m.QueryRequest?
    requires NeverBreaks(NoDesertion, p, moves) && NeverSwallows(p, moves)
    requires i < |p.tasks| && p.tasks[i] == Looked(m, Some(tx))
    ensures var r := Play(p, moves);
            i < |r.pool.tasks| && OnItsWay(r.pool.tasks[i], r.out, m, tx, WasCopy(p, moves, i))
    decreases |moves|
  {
    if moves != [] {
      var front, last := moves[..|moves| - 1], moves[|moves| - 1];
      RequestStaysOnItsWay(p, front, i, m, tx);
      KeptExactly(NoDesertion, p, front);
      HoldsAtEnd(NoDesertion, p, front);
      var before := Play(p, front);
      CopyNoted(p, moves, i);
      OnItsWayStill(before.pool.tasks[i], before.out, m, tx, WasCopy(p, front, i), WasCopy(p, moves, i));
      MoveKeepsOnItsWay(before.pool, last, i, before.out, m, tx, WasCopy(p, moves, i));
    }
  }

  /** No silent loss under interleaving: a request taken while its requester was connected, in a play in which nobody
      is deserted and no request swallowed, is passed on, refused or a copy of one that still waits, once its task is
      done. */
  lemma EveryRequestIsSettled(p: Pool, i: nat, m: ClientMessage, now: int, net: Net, st: Storage, moves: seq<Move>)
    requires SectionInvariant(p) && RespondersConnected(p)
    requires i < |p.tasks| && p.tasks[i] == Touched(m) && m.QueryRequest? && m.requester in p.shared.connected
    requires var p' := MakeMove(p, Run(i, now, net, st)).pool;
             NeverBreaks(NoDesertion, p', moves) && NeverSwallows(p', moves)
    ensures var p' := MakeMove(p, Run(i, now, net, st)).pool;
            var r, tx := Play(p', moves), p.shared.connected[m.requester].tx;
            i < |r.pool.tasks|
            && (r.pool.tasks[i].Done? ==> PassedOn(r.out, m) || Refused(r.out, m, tx) || WasCopy(p', moves, i))
  {
    var look := Run(i, now, net, st);
    MoveKeepsInvariant(p, look);
    MoveKeepsRespondersExactly(p, look);
    RequestStaysOnItsWay(MakeMove(p, look).pool, moves, i, m, p.shared.connected[m.requester].tx);
  }

  /** A request that found its requester connected ends with neither a recording nor a refusal exactly when its
      responder is gone, or it repeats an open request. */
  lemma UnheardExactly(p: Pool, i: nat, now: int, net: Net, st: Storage, tx: Tx)
    requires SectionInvariant(p) && i < |p.tasks|
    requires var t := p.tasks[i]; (t.Looked? || t.Unique? || t.Chose?) && t.requester == Some(tx)
    ensures var t, n := p.tasks[i], MakeMove(p, Run(i, now, net, st));
            n.pool.tasks[i].Done? && !Refused(n.out, t.m, tx)
            <==> (t.Chose? && t.responder !in p.shared.connected) || LooksAtCopy(p, i)
  {
    var t := p.tasks[i];
    if !t.Chose? || t.responder in p.shared.connected {
      RequestSection(p.shared, t, now, net, st, tx);
    }
  }

  // ---------- every desertion and every swallowing does harm ----------

  /** After every desertion a request is lost as soon as its task goes on. */
  lemma EveryDesertionHarms(p: Pool, move: Move, now: int, net: Net, st: Storage) returns (j: nat)
    requires SectionInvariant(p) && Deserts(p, move)
    ensures j < |p.tasks| && MakeMove(p, move).pool.tasks[j].Chose?
    ensures var next := MakeMove(MakeMove(p, move).pool, Run(j, now, net, st));
            next.out == [] && next.pool.tasks[j].Done?
  {
    j := move.i;
    if p.tasks[move.i].Touched? {
      j :| 0 <= j < |p.tasks| && p.tasks[j].Chose? && p.tasks[j].responder == p.tasks[move.i].m.client;
    }
  }

  /** A swallowed request is done at once, and when the task that drops the other request has run, its id is not open:
      nothing was sent to anybody. */
  lemma EverySwallowingHarms(p: Pool, move: Move) returns (j: nat)
    requires SectionInvariant(p) && Swallows(p, move)
    ensures j < |p.tasks| && j != move.i
    ensures var r := Play(p, [move] + [Go(j)]);
            && |r.pool.tasks| == |p.tasks| && r.pool.tasks[move.i].Done?
                && p.tasks[move.i].m.requestId !in r.pool.shared.ongoing
            && forall e :: e in r.out ==> !e.Sent? && !e.Dispatched?
  {
    var r := p.tasks[move.i].m.requestId;
    j :| 0 <= j < |p.tasks| && (p.tasks[j] == Delivered(r) || p.tasks[j] == Noticed(r));
    PlayFirst(p, move, [Go(j)]);
    OneMove(MakeMove(p, move).pool, Go(j));
  }

  /** The retry looks at the old entry before it is dropped. */
  lemma RetryIsSwallowed(b: Broker, m: ClientMessage) returns (moves: seq<Move>, b': Broker)
    requires m.QueryRequest? && m.requestId in b.ongoing && b.ongoing[m.requestId].IsSame(m)
    requires FiledUnderOwnId(b.ongoing)
    ensures var p := Pool(b, [Noticed(m.requestId), Arrived(m)]);
            && (forall k :: NeverBreaks(k, p, moves))
            && Play(p, moves) == Moved(Pool(b', [Done, Done]), [TimedOut(m.requestId, m.queryId)])
    ensures m.requestId !in b'.ongoing
  {
    var r, b1 := m.requestId, Touch(b, m.Source(), 0);
    var timeout := [TimedOut(r, m.queryId)];
    var p3, p4 := Pool(b, [Noticed(r), Arrived(m)]), Pool(b1, [Noticed(r), Touched(m)]);
    var p5, p6 := Pool(b1, [Noticed(r), Looked(m, TxOf(b1, m.requester))]), Pool(b1, [Noticed(r), Done]);
    b' := b1.(ongoing := b1.ongoing - {r});
    TameFirst(p6, Go(0), Pool(b', [Done, Done]), timeout, [], []);
    assert timeout + [] == timeout;
    var last := [Go(0)] + [];
    TameFirst(p5, Go(1), p6, [], last, timeout);
    TameFirst(p4, Go(1), p5, [], [Go(1)] + last, timeout);
    TameFirst(p3, Go(1), p4, [], [Go(1)] + ([Go(1)] + last), timeout);
    moves := [Go(1)] + ([Go(1)] + ([Go(1)] + last));
  }

  /** A request that repeats one whose timeout was just announced: a play that breaks none of the four concerns, in
      which the retry is swallowed; it sends nothing but the notice about the old request, and leaves nothing open. */
  lemma RetryAfterNoticeIsLost(b: Broker, m: ClientMessage) returns (moves: seq<Move>)
    requires m.QueryRequest? && m.requestId in b.ongoing && b.ongoing[m.requestId].IsSame(m)
             && FiledUnderOwnId(b.ongoing)
    requires m.requester in b.connected
    ensures forall k :: NeverBreaks(k, Pool(b, []), moves)
    ensures Spawn(m) in moves
    ensures var r := Play(Pool(b, []), moves);
            && r.pool.tasks == [Done, Done] && m.requestId !in r.pool.shared.ongoing
            && r.out == [Sent(m.requester, b.connected[m.requester].tx,
                              QueryRequestedFailed(m.requestId, m.queryId, QueryTimedOut), true)]
                        + [TimedOut(m.requestId, m.queryId)]
  {
    var r, o, timeout := m.requestId, b.ongoing[m.requestId], [TimedOut(m.requestId, m.queryId)];
    var notice := Sent(m.requester, b.connected[m.requester].tx, QueryRequestedFailed(r, m.queryId, QueryTimedOut),
        true);
    var p1, p2, p3 := Pool(b, [Expiring(o)]), Pool(b, [Noticed(r)]), Pool(b, [Noticed(r), Arrived(m)]);
    var retry, b' := RetryIsSwallowed(b, m);
    TameFirst(p2, Spawn(m), p3, [], retry, timeout);
    TameFirst(p1, Go(0), p2, [notice], [Spawn(m)] + retry, timeout);
    var rest := [Go(0)] + ([Spawn(m)] + retry);
    TameFirst(Pool(b, []), SpawnExpiry(r), p1, [], rest, [notice] + timeout);
    moves := [SpawnExpiry(r)] + rest;
    assert moves[2] == Spawn(m);
  }

  /** Putting a move that breaks no concern in front of a play that breaks none. */
  lemma TameFirst(p: Pool, move: Move, p': Pool, said: seq<Event>, rest: seq<Move>, out: seq<Event>)
    requires MakeMove(p, move) == Moved(p', said) && Play(p', rest).out == out
    requires forall k :: !Breaks(k, p, move) && NeverBreaks(k, p', rest)
    ensures forall k :: NeverBreaks(k, p, [move] + rest)
    ensures Play(p, [move] + rest) == Moved(Play(p', rest).pool, said + out)
    ensures said == [] ==> Play(p, [move] + rest).out == out
  {
    PlayFirst(p, move, rest);
    assert [] + out == out;
    forall k ensures NeverBreaks(k, p, [move] + rest) {
      NeverBreaksFirst(k, p, move, rest);
    }
  }

  lemma NeverBreaksNext(k: Concern, p: Pool, moves: seq<Move>, last: Move)
    requires NeverBreaks(k, p, moves) && !Breaks(k, Play(p, moves).pool, last)
    ensures NeverBreaks(k, p, moves + [last])
  {
    assert (moves + [last])[..|moves|] == moves;
  }

  lemma {:induction false} NeverBreaksFirst(k: Concern, p: Pool, move: Move, rest: seq<Move>)
    requires !Breaks(k, p, move) && NeverBreaks(k, MakeMove(p, move).pool, rest)
    ensures NeverBreaks(k, p, [move] + rest)
    decreases |rest|
  {
    if rest == [] {
      assert [move] + rest == [move] && [move][..0] == [];
      assert Play(p, []).pool == p;
    } else {
      var front, last := rest[..|rest| - 1], rest[|rest| - 1];
      NeverBreaksFirst(k, p, move, front);
      PlayFirst(p, move, front);
      NeverBreaksNext(k, p, [move] + front, last);
      assert [move] + front + [last] == [move] + rest;
    }
  }

  // ---------- stale handlers ----------

  /** `ask` comes fresh from a connected requester and, handled without interruption, is neither passed on nor
      refused. */
  ghost predicate IsLost(b: Broker, ask: ClientMessage) {
    && ask.QueryRequest? && ask.requester in b.connected && ask.requestId !in b.ongoing
    && var handled := HandleMessage(b, ask, 0, ALL_SENDS_WORK, NO_STORAGE);
       handled.out == [] && ask.requestId !in handled.state.ongoing
  }

  /** `c` is listed for `q`, but neither connected nor being disconnected. */
  ghost predicate StaleFor(p: Pool, c: ClientId, q: QueryId) {
    c in Lookup(p.shared.handlers, q) && c !in p.shared.connected && !Leaving(p, c)
  }

  ghost predicate NobodyLeaves(p: Pool) {
    forall c :: !Leaving(p, c)
  }

  lemma {:induction false} WithoutShorter(xs: seq<ClientId>, c: ClientId)
    ensures |Without(xs, c)| <= |xs| && (c in xs ==> |Without(xs, c)| < |xs|)
  {
    if xs != [] {
      assert xs == [xs[0]] + xs[1..];
      WithoutShorter(xs[1..], c);
    }
  }

  /** A query whose only handlers are gone. */
  lemma LostWhenAllAreGone(b: Broker, c: ClientId, ask: ClientMessage)
    requires ask.QueryRequest? && ask.requester in b.connected && ask.requestId !in b.ongoing && c !in b.connected
    requires c in Lookup(b.handlers, ask.queryId) && forall d :: d in Lookup(b.handlers, ask.queryId) ==> d == c
    ensures IsLost(b, ask)
  {
    SelectReturnsMember(b.handlers, b.cursor, ask.queryId);
  }

  /** A handler of the query that is not `c` leaves. */
  lemma OneLeaves(p: Pool, c: ClientId, d: ClientId, ask: ClientMessage) returns (moves: seq<Move>)
    requires ask.QueryRequest? && StaleFor(p, c, ask.queryId) && ask.requestId !in p.shared.ongoing
    requires ask.requester in p.shared.connected && ask.requester !in Lookup(p.shared.handlers, ask.queryId)
    requires d in Lookup(p.shared.handlers, ask.queryId) && d != c
    ensures var q := Play(p, moves).pool;
            && OnlyAddsDone(p, q) && StaleFor(q, c, ask.queryId) && ask.requestId !in q.shared.ongoing
            && ask.requester in q.shared.connected && ask.requester !in Lookup(q.shared.handlers, ask.queryId)
            && |Lookup(q.shared.handlers, ask.queryId)| < |Lookup(p.shared.handlers, ask.queryId)|
    ensures Gentle(p, moves, {}, |p.tasks|)
  {
    moves := PlayClientMessage(p, DisconnectClient(d), 0, ALL_SENDS_WORK, NO_STORAGE);
    var q, list := Play(p, moves).pool, Lookup(p.shared.handlers, ask.queryId);
    LookupAfterRemove(p.shared.handlers, d, ask.queryId);
    WithoutMembers(list, d);
    WithoutShorter(list, d);
    assert Touch(p.shared, Some(d), 0).connected.Keys == p.shared.connected.Keys;
    DoneChangesNobody(p, q);
  }

  /** The other handlers of a query can leave one after the other. */
  lemma OthersLeave(p: Pool, c: ClientId, ask: ClientMessage) returns (moves: seq<Move>)
    requires ask.QueryRequest? && StaleFor(p, c, ask.queryId) && ask.requestId !in p.shared.ongoing
    requires ask.requester in p.shared.connected && ask.requester !in Lookup(p.shared.handlers, ask.queryId)
    ensures var q := Play(p, moves).pool;
            IsLost(q.shared, ask) && OnlyAddsDone(p, q) && StaleFor(q, c, ask.queryId)
    ensures Gentle(p, moves, {}, |p.tasks|)
    decreases |Lookup(p.shared.handlers, ask.queryId)|
  {
    if d :| d in Lookup(p.shared.handlers, ask.queryId) && d != c {
      var first := OneLeaves(p, c, d, ask);
      var p' := Play(p, first).pool;
      var rest := OthersLeave(p', c, ask);
      moves := first + rest;
      GentleThen(p, first, rest);
      DoneThenDone(p, p', Play(p, moves).pool);
    } else {
      moves := [];
      LostWhenAllAreGone(p.shared, c, ask);
    }
  }

  /** Two gentle continuations that run no old task, one after the other. */
  lemma GentleThen(p: Pool, first: seq<Move>, rest: seq<Move>)
    requires Gentle(p, first, {}, |p.tasks|) && |Play(p, first).pool.tasks| >= |p.tasks|
    requires Gentle(Play(p, first).pool, rest, {}, |Play(p, first).pool.tasks|)
    ensures Gentle(p, first + rest, {}, |p.tasks|)
    ensures Play(p, first + rest).pool == Play(Play(p, first).pool, rest).pool
  {
    var p' := Play(p, first).pool;
    PlayAppend(p, first, rest);
    GentleWiden(p', rest, {}, |p'.tasks|, {}, |p.tasks|);
    GentleAppend(p, first, rest, {}, |p.tasks|);
  }

  lemma DoneThenDone(p: Pool, p': Pool, p'': Pool)
    requires OnlyAddsDone(p, p') && OnlyAddsDone(p', p'')
    ensures OnlyAddsDone(p, p'')
  {
    assert p''.tasks[..|p.tasks|] == p''.tasks[..|p'.tasks|][..|p.tasks|];
    forall i | |p.tasks| <= i < |p''.tasks| ensures p''.tasks[i].Done? {
      assert i < |p'.tasks| ==> p''.tasks[..|p'.tasks|][i] == p'.tasks[i];
    }
  }

  lemma DoneChangesNobody(p: Pool, p': Pool)
    requires OnlyAddsDone(p, p')
    ensures forall c :: Leaving(p', c) <==> Leaving(p, c)
  {
    forall c ensures Leaving(p', c) <==> Leaving(p, c) {
      if Leaving(p, c) {
        var i :| 0 <= i < |p.tasks| && p.tasks[i] == Unlisted(c);
        assert p'.tasks[..|p.tasks|][i] == Unlisted(c);
      }
      if Leaving(p', c) {
        var i :| 0 <= i < |p'.tasks| && p'.tasks[i] == Unlisted(c);
        assert p'.tasks[..|p.tasks|][i] == Unlisted(c);
      }
    }
  }

  /** A stale handler costs requests: after some registrations and disconnections, none of them interrupted, a fresh
      request of a connected client for the query is lost, and the handler is still stale. */
  lemma StaleHandlerLosesRequests(p: Pool, c: ClientId, ask: ClientMessage) returns (moves: seq<Move>)
    requires ask.QueryRequest? && StaleFor(p, c, ask.queryId) && ask.requestId !in p.shared.ongoing
             && ask.requester != c
    ensures var q := Play(p, moves).pool;
            IsLost(q.shared, ask) && OnlyAddsDone(p, q) && StaleFor(q, c, ask.queryId)
    ensures Gentle(p, moves, {}, |p.tasks|)
  {
    var first := Reconnect(p, ask.requester, []);
    var p' := Play(p, first).pool;
    RequesterBack(p.shared, ask.requester, c, ask.queryId);
    DoneChangesNobody(p, p');
    var rest := OthersLeave(p', c, ask);
    moves := first + rest;
    GentleThen(p, first, rest);
    DoneThenDone(p, p', Play(p, moves).pool);
  }

  /** A client that comes back without queries is connected and listed nowhere. */
  lemma RequesterBack(b: Broker, d: ClientId, c: ClientId, q: QueryId)
    requires c != d && c in Lookup(b.handlers, q) && c !in b.connected
    ensures var b' := ComeBack(b, d, []).state;
            && d in b'.connected && c !in b'.connected && b'.ongoing == b.ongoing
            && c in Lookup(b'.handlers, q) && d !in Lookup(b'.handlers, q)
  {
    ComeBackConnects(b, d, []);
    LookupAfterRemove(b.handlers, d, q);
    WithoutMembers(Lookup(b.handlers, q), d);
  }

  /** Without stale handlers, and while nobody is being disconnected, every selection finds its responder connected. */
  lemma SelectionIsConnected(p: Pool, q: QueryId)
    requires NoStaleHandler(p) && NobodyLeaves(p)
    ensures var selection := Select(p.shared.handlers, p.shared.cursor, q);
            selection == HandlerNotFound || (selection.Selected? && selection.client in p.shared.connected)
  {
    SelectReturnsMember(p.shared.handlers, p.shared.cursor, q);
  }

  lemma ServedWhenNotStale(p: Pool, ask: ClientMessage)
    requires NoStaleHandler(p) && NobodyLeaves(p)
    ensures !IsLost(p.shared, ask)
  {
    if ask.QueryRequest? {
      SelectionIsConnected(p, ask.queryId);
    }
  }

  lemma FreshId(ongoing: OngoingRequests) returns (r: RequestId)
    ensures r !in ongoing
  {
    var ids := set k | k in ongoing :: k.uuid;
    var bound := AboveAll(ids);
    r := RequestId(bound);
    forall k | k in ongoing ensures k != r {
      assert k.uuid in ids;
    }
  }

  lemma {:induction false} AboveAll(ids: set<nat>) returns (bound: nat)
    ensures forall x :: x in ids ==> x < bound
  {
    if ids == {} {
      bound := 0;
    } else {
      var x :| x in ids;
      var rest := AboveAll(ids - {x});
      bound := if x < rest then rest else x + 1;
      assert forall y :: y in ids ==> y == x || y in ids - {x};
    }
  }

  /** While nobody is being disconnected, there is no stale handler exactly when no continuation of uninterrupted or
      interleaved registrations and disconnections, without a stray one, ends with everybody at rest and a fresh
      request lost. */
  lemma StaleHandlersAreWhatLoses(p: Pool)
    requires SectionInvariant(p) && NobodyLeaves(p)
    ensures NoStaleHandler(p) <==>
              forall more, ask :: Gentle(p, more, {}, |p.tasks|) && NobodyLeaves(Play(p, more).pool)
                  ==> !IsLost(Play(p, more).pool.shared, ask)
  {
    if NoStaleHandler(p) {
      forall more, ask | Gentle(p, more, {}, |p.tasks|) && NobodyLeaves(Play(p, more).pool)
        ensures !IsLost(Play(p, more).pool.shared, ask)
      {
        GentleIsTame(p, more, {}, |p.tasks|);
        KeptExactly(NoStrays, p, more);
        HoldsAtEnd(NoStrays, p, more);
        ServedWhenNotStale(Play(p, more).pool, ask);
      }
    } else {
      var q, c :| c in Lookup(p.shared.handlers, q) && !(c in p.shared.connected || Leaving(p, c));
      var r := FreshId(p.shared.ongoing);
      var ask := QueryRequest(r, ClientId(c.name + "x"), q, map[]);
      var more := StaleHandlerLosesRequests(p, c, ask);
      DoneChangesNobody(p, Play(p, more).pool);
    }
  }

  /** After every stray registration, with no further one, fresh requests for its queries are lost. */
  lemma EveryStrayCanHarm(p: Pool, move: Move, ask: ClientMessage) returns (more: seq<Move>)
    requires Strays(p, move) && ask.QueryRequest? && ask.queryId in p.tasks[move.i].m.queries
    requires ask.requestId !in p.shared.ongoing && ask.requester != p.tasks[move.i].m.client
    ensures var p' := MakeMove(p, move).pool;
            && Gentle(p', more, {}, |p'.tasks|) && OnlyAddsDone(p', Play(p, [move] + more).pool)
            && StaleFor(Play(p, [move] + more).pool, p.tasks[move.i].m.client, ask.queryId)
            && IsLost(Play(p, [move] + more).pool.shared, ask)
  {
    var p', m := MakeMove(p, move).pool, p.tasks[move.i].m;
    ListedAfterInsertion(p.shared.handlers, m, ask.queryId, m.client);
    InsertionLeavesNobody(p, move, m.client);
    more := StaleHandlerLosesRequests(p', m.client, ask);
    PlayFirst(p, move, more);
  }

  lemma InsertionLeavesNobody(p: Pool, move: Move, c: ClientId)
    requires Strays(p, move) && !Leaving(p, c)
    ensures !Leaving(MakeMove(p, move).pool, c)
  {
    var p' := MakeMove(p, move).pool;
    forall j | 0 <= j < |p'.tasks| ensures p'.tasks[j] != Unlisted(c) {
      if j != move.i {
        assert p'.tasks[j] == p.tasks[j] && p.tasks[j] in p.tasks;
      }
    }
  }

  lemma InsertedAlone(b: Broker, m: ClientMessage)
    requires m.RegisterClient? && m.client !in b.connected
    ensures var p := Play(Pool(b, [Arrived(m)]), Thrice(0)).pool;
            p.tasks == [Inserted(m)] && p.shared.ongoing == b.ongoing
  {
    ThreeMoves(Pool(b, [Arrived(m)]), 0);
  }

  /** The registration has connected its client when the client is disconnected. */
  lemma DisconnectedInside(b: Broker, m: ClientMessage) returns (before: seq<Move>, p: Pool)
    requires m.RegisterClient? && m.client !in b.connected
    ensures p == Play(Pool(b, []), before).pool && p.tasks == [Inserted(m), Done]
    ensures m.client !in p.shared.connected && p.shared.ongoing == b.ongoing
  {
    var p0, p1, leave := Pool(b, []), Pool(b, [Arrived(m)]), DisconnectClient(m.client);
    InsertedAlone(b, m);
    var p2 := Play(p1, Thrice(0)).pool;
    var gone := PlayMessage(p2, leave, 0, ALL_SENDS_WORK, NO_STORAGE);
    before := [Spawn(m)] + (Thrice(0) + gone);
    assert MakeMove(p0, Spawn(m)).pool == p1;
    PlayFirst(p0, Spawn(m), Thrice(0) + gone);
    PlayAppend(p1, Thrice(0), gone);
    p := Play(p2, gone).pool;
  }

  /** A disconnection inside a registration: a play from a broker without tasks that ends with a stray registration,
      after which requests are lost. */
  lemma InterruptedRegistrationLosesRequests(b: Broker, m: ClientMessage, ask: ClientMessage)
    returns (before: seq<Move>, more: seq<Move>)
    requires m.RegisterClient? && m.client !in b.connected
    requires ask.QueryRequest? && ask.queryId in m.queries && ask.requestId !in b.ongoing && ask.requester != m.client
    ensures Strays(Play(Pool(b, []), before).pool, Go(0))
    ensures var p := MakeMove(Play(Pool(b, []), before).pool, Go(0)).pool;
            && Gentle(p, more, {}, |p.tasks|) && NobodyLeaves(Play(p, more).pool)
                && IsLost(Play(p, more).pool.shared, ask)
  {
    var p;
    before, p := DisconnectedInside(b, m);
    more := EveryStrayCanHarm(p, Go(0), ask);
    var p' := MakeMove(p, Go(0)).pool;
    PlayFirst(p, Go(0), more);
    assert p'.tasks == [Done, Done];
    DoneChangesNobody(p', Play(p', more).pool);
  }
}

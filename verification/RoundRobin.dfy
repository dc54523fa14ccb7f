/** Round-robin selection with one cursor (src/domain/mod.rs:68-107). */
module RoundRobin {
  import opened Ids

  /** Index of the first copy of `x` at or after `i`. */
  function PositionFrom(xs: seq<ClientId>, x: ClientId, i: nat): (p: Option<nat>)
    requires i <= |xs|
    ensures p.None? ==> forall j :: i <= j < |xs| ==> xs[j] != x
    ensures p.Some? ==> i <= p.value < |xs| && xs[p.value] == x && forall j :: i <= j < p.value ==> xs[j] != x
    decreases |xs| - i
  {
    if i == |xs| then None
    else if xs[i] == x then Some(i)
    else PositionFrom(xs, x, i + 1)
  }

  /** Index of the first copy of `x`. */
  function Position(xs: seq<ClientId>, x: ClientId): (p: Option<nat>)
    ensures p.None? <==> x !in xs
    ensures p.Some? ==> p.value < |xs| && xs[p.value] == x && forall j :: 0 <= j < p.value ==> xs[j] != x
  {
    PositionFrom(xs, x, 0)
  }

  /** The index after the cursor's first copy, cyclically; the first index if the cursor is unset or absent. */
  function NextIndex(cursor: Option<ClientId>, sorted: seq<ClientId>): (i: nat)
    requires sorted != []
    ensures i < |sorted|
  {
    match (if cursor.None? then None else Position(sorted, cursor.value))
    case None => 0
    case Some(pos) => After(pos, |sorted|)
  }

  /** The index after `i` going round `n` places. */
  function After(i: nat, n: nat): (j: nat)
    requires i < n
    ensures j < n
  {
    if i + 1 == n then 0 else i + 1
  }

  lemma AfterIsModular(i: nat, n: nat)
    requires i < n
    ensures After(i, n) == (i + 1) % n
  {
    if i + 1 < n {
      assert (i + 1) / n == 0;
    }
  }

  /** The candidate after the cursor in sorted order, cyclically; the least one if the cursor is
      unset or not a candidate. The result is also the new cursor. */
  function Next(cursor: Option<ClientId>, candidates: seq<ClientId>): (next: Option<ClientId>)
    ensures next.None? <==> candidates == []
  {
    if candidates == [] then None
    else
      var sorted := Sort(candidates);
      Some(sorted[NextIndex(cursor, sorted)])
  }

  /** A selection returns one of the candidates. */
  lemma NextIsCandidate(cursor: Option<ClientId>, candidates: seq<ClientId>)
    requires candidates != []
    ensures Next(cursor, candidates).value in candidates
  {
    SortSorts(candidates);
    assert Next(cursor, candidates).value in multiset(Sort(candidates));
  }

  /** The result of selection number `i` (from 0) when the sorted candidates stay `ring`. */
  ghost function PickAt(cursor: Option<ClientId>, ring: seq<ClientId>, i: nat): ClientId
    requires ring != []
    decreases i
  {
    ring[NextIndex(CursorAfter(cursor, ring, i), ring)]
  }

  /** The cursor after `k` selections. */
  ghost function CursorAfter(cursor: Option<ClientId>, ring: seq<ClientId>, k: nat): Option<ClientId>
    requires ring != []
    decreases k, 0
  {
    if k == 0 then cursor else Some(PickAt(cursor, ring, k - 1))
  }

  /** The results of `k` consecutive selections. */
  ghost function Picks(cursor: Option<ClientId>, ring: seq<ClientId>, k: nat): (picks: seq<ClientId>)
    requires ring != []
    ensures |picks| == k
  {
    seq(k, i requires 0 <= i => PickAt(cursor, ring, i))
  }

  /** The mutable strategy object. */
  class RoundRobinStrategy {
    var lastSelected: Option<ClientId>

    constructor ()
      ensures lastSelected == None
    {
      lastSelected := None;
    }

    method Select(candidates: seq<ClientId>) returns (selected: Option<ClientId>)
      modifies this
      ensures selected == Next(old(lastSelected), candidates)
      ensures lastSelected == selected
    {
      if candidates == [] {
        lastSelected := None;
        return None;
      }
      var sortedCandidates := Sort(candidates);
      var position := if lastSelected.None? then None else Position(sortedCandidates, lastSelected.value);
      var next := sortedCandidates[0];
      if position.Some? {
        AfterIsModular(position.value, |sortedCandidates|);
        next := sortedCandidates[(position.value + 1) % |sortedCandidates|];
      }
      lastSelected := Some(next);
      selected := Some(next);
    }
  }

  // ---------- repeat-free candidates: a rotation ----------

  lemma PositionOfDistinct(xs: seq<ClientId>, i: nat)
    requires Distinct(xs) && i < |xs|
    ensures Position(xs, xs[i]) == Some(i)
  {
    assert xs[i] in xs;
  }

  lemma FirstCopy(xs: seq<ClientId>, x: ClientId, i: nat)
    requires i < |xs| && xs[i] == x
    ensures Position(xs, x).Some? && Position(xs, x).value <= i
  {
    assert x in xs;
  }

  /** With the cursor on a candidate, the next selection is its neighbour. */
  lemma NextIsNeighbour(ring: seq<ClientId>, i: nat)
    requires Distinct(ring) && i < |ring|
    ensures NextIndex(Some(ring[i]), ring) == After(i, |ring|)
  {
    PositionOfDistinct(ring, i);
  }

  /** Selections after `w` others are selections from the cursor those leave. */
  lemma {:induction false} PickAtLater(cursor: Option<ClientId>, ring: seq<ClientId>, w: nat, i: nat)
    requires ring != []
    ensures PickAt(cursor, ring, w + i) == PickAt(CursorAfter(cursor, ring, w), ring, i)
    decreases i
  {
    if i > 0 {
      PickAtLater(cursor, ring, w, i - 1);
    }
  }

  /** Each selection is one place further round the ring. */
  lemma IndexAdvances(cursor: Option<ClientId>, ring: seq<ClientId>, i: nat)
    requires ring != [] && Distinct(ring)
    ensures NextIndex(CursorAfter(cursor, ring, i + 1), ring)
            == After(NextIndex(CursorAfter(cursor, ring, i), ring), |ring|)
  {
    NextIsNeighbour(ring, NextIndex(CursorAfter(cursor, ring, i), ring));
  }

  /** Selection number `i` of a round is `i` places round the ring from the first. */
  lemma {:induction false} PickAtRotates(cursor: Option<ClientId>, ring: seq<ClientId>, i: nat)
    requires Distinct(ring) && i < |ring|
    ensures var at := NextIndex(cursor, ring) + i;
            NextIndex(CursorAfter(cursor, ring, i), ring) == if at < |ring| then at else at - |ring|
  {
    if i > 0 {
      PickAtRotates(cursor, ring, i - 1);
      IndexAdvances(cursor, ring, i - 1);
    }
  }

  lemma RotationPermutes<T>(xs: seq<T>, i: nat)
    requires i <= |xs|
    ensures multiset(xs[i..] + xs[..i]) == multiset(xs)
  {
    assert xs == xs[..i] + xs[i..];
  }

  /** One full round picks each candidate exactly once, from any cursor. */
  lemma {:induction false} FullRound(cursor: Option<ClientId>, ring: seq<ClientId>)
    requires ring != [] && Distinct(ring)
    ensures multiset(Picks(cursor, ring, |ring|)) == multiset(ring)
  {
    var start := NextIndex(cursor, ring);
    var rotated := ring[start..] + ring[..start];
    forall i | 0 <= i < |ring| ensures Picks(cursor, ring, |ring|)[i] == rotated[i] {
      PickAtRotates(cursor, ring, i);
    }
    assert Picks(cursor, ring, |ring|) == rotated;
    RotationPermutes(ring, start);
  }

  /** A window of a long series of selections is the series that starts where the cursor then is. */
  lemma {:induction false} WindowIsPicks(cursor: Option<ClientId>, ring: seq<ClientId>, k: nat, w: nat, n: nat)
    requires ring != [] && w + n <= k
    ensures Picks(cursor, ring, k)[w..w + n] == Picks(CursorAfter(cursor, ring, w), ring, n)
  {
    var window, picks := Picks(cursor, ring, k)[w..w + n], Picks(CursorAfter(cursor, ring, w), ring, n);
    forall i | 0 <= i < n ensures window[i] == picks[i] {
      PickAtLater(cursor, ring, w, i);
    }
  }

  /** Any window of as many consecutive selections as there are candidates serves each exactly once. */
  lemma {:induction false} EveryWindowIsFair(cursor: Option<ClientId>, ring: seq<ClientId>, k: nat, w: nat)
    requires ring != [] && Distinct(ring) && w + |ring| <= k
    ensures multiset(Picks(cursor, ring, k)[w..w + |ring|]) == multiset(ring)
  {
    var cursor' := CursorAfter(cursor, ring, w);
    assert multiset(Picks(cursor', ring, |ring|)) == multiset(ring) by { FullRound(cursor', ring); }
    assert Picks(cursor, ring, k)[w..w + |ring|]
        == Picks(cursor', ring, |ring|) by { WindowIsPicks(cursor, ring, k, w, |ring|); }
  }

  lemma CountOfSum<T>(xs: seq<T>, ys: seq<T>, x: T)
    ensures multiset(xs + ys)[x] == multiset(xs)[x] + multiset(ys)[x]
  {
  }

  lemma {:induction false} PicksSplit(cursor: Option<ClientId>, ring: seq<ClientId>, j: nat, k: nat)
    requires ring != [] && j <= k
    ensures Picks(cursor, ring, k) == Picks(cursor, ring, j) + Picks(CursorAfter(cursor, ring, j), ring, k - j)
  {
    var rest := Picks(CursorAfter(cursor, ring, j), ring, k - j);
    forall i | j <= i < k ensures PickAt(cursor, ring, i) == rest[i - j] {
      PickAtLater(cursor, ring, j, i - j);
    }
  }

  /** A full round adds one to every candidate's count. */
  lemma CountOfRound(cursor: Option<ClientId>, ring: seq<ClientId>, k: nat, c: ClientId)
    requires Distinct(ring) && c in ring && |ring| <= k
    ensures multiset(Picks(cursor, ring, k))[c] ==
            1 + multiset(Picks(CursorAfter(cursor, ring, |ring|), ring, k - |ring|))[c]
  {
    DistinctCounts(ring, c);
    FullRound(cursor, ring);
    PicksSplit(cursor, ring, |ring|, k);
    CountOfSum(Picks(cursor, ring, |ring|), Picks(CursorAfter(cursor, ring, |ring|), ring, k - |ring|), c);
  }

  lemma CountInPartialRound(cursor: Option<ClientId>, ring: seq<ClientId>, k: nat, c: ClientId)
    requires Distinct(ring) && c in ring && k < |ring|
    ensures multiset(Picks(cursor, ring, k))[c] <= 1
  {
    DistinctCounts(ring, c);
    FullRound(cursor, ring);
    PicksSplit(cursor, ring, k, |ring|);
    CountOfSum(Picks(cursor, ring, k), Picks(CursorAfter(cursor, ring, k), ring, |ring| - k), c);
  }

  /** After any number of selections, no candidate is more than one selection ahead of another. */
  lemma {:induction false} CountsBalanced(cursor: Option<ClientId>, ring: seq<ClientId>, k: nat, c: ClientId,
                                          d: ClientId)
    requires Distinct(ring) && c in ring && d in ring
    ensures multiset(Picks(cursor, ring, k))[c] <= multiset(Picks(cursor, ring, k))[d] + 1
    decreases k
  {
    if k < |ring| {
      CountInPartialRound(cursor, ring, k, c);
    } else {
      CountOfRound(cursor, ring, k, c);
      CountOfRound(cursor, ring, k, d);
      CountsBalanced(CursorAfter(cursor, ring, |ring|), ring, k - |ring|, c, d);
    }
  }

  // ---------- repeated candidates: selection gets stuck ----------

  /** In sorted order the copies of an id are adjacent, so a repeated id follows its own first copy. */
  lemma RepeatFollowsItself(ring: seq<ClientId>, i: nat, j: nat)
    requires Sorted(ring) && i < j < |ring| && ring[i] == ring[j]
    ensures ring[NextIndex(Some(ring[i]), ring)] == ring[i]
  {
    var x := ring[i];
    var p := Position(ring, x).value;
    FirstCopy(ring, x, i);
    LeIsTotalOrder(ring[p + 1], x, x);
    assert Le(ring[p], ring[p + 1]);
    if p + 1 < j {
      assert Le(ring[p + 1], ring[j]);
    }
  }

  /** A client that declared the query twice is selected again and again once the cursor reaches it. */
  lemma {:induction false} RepeatStarvesOthers(ring: seq<ClientId>, i: nat, j: nat, k: nat)
    requires Sorted(ring) && i < j < |ring| && ring[i] == ring[j]
    ensures PickAt(Some(ring[i]), ring, k) == ring[i]
  {
    RepeatFollowsItself(ring, i, j);
    if k > 0 {
      RepeatStarvesOthers(ring, i, j, k - 1);
    }
  }

  /** From every cursor, every candidate is served within one round's worth of selections. */
  ghost predicate ServesAll(ring: seq<ClientId>)
    requires ring != []
  {
    forall cursor, c :: c in ring ==> c in Picks(cursor, ring, |ring|)
  }

  ghost predicate AllSame(ring: seq<ClientId>) {
    forall i, j :: 0 <= i < j < |ring| ==> ring[i] == ring[j]
  }

  /** Fairness holds exactly for repeat-free lists and for lists of a single client. */
  lemma FairExactlyWithoutRepeats(ring: seq<ClientId>)
    requires ring != [] && Sorted(ring)
    ensures ServesAll(ring) <==> Distinct(ring) || AllSame(ring)
  {
    if Distinct(ring) {
      forall cursor, c | c in ring ensures c in Picks(cursor, ring, |ring|) {
        FullRound(cursor, ring);
        assert c in multiset(ring);
      }
    } else if AllSame(ring) {
      forall cursor, c | c in ring ensures c in Picks(cursor, ring, |ring|) {
        var j :| 0 <= j < |ring| && ring[j] == c;
        assert Picks(cursor, ring, |ring|)[0] == ring[NextIndex(cursor, ring)] == c;
      }
    } else {
      NotServed(ring);
    }
  }

  lemma NotServed(ring: seq<ClientId>)
    requires ring != [] && Sorted(ring) && !Distinct(ring) && !AllSame(ring)
    ensures !ServesAll(ring)
  {
    var i, j :| 0 <= i < j < |ring| && ring[i] == ring[j];
    var a, b :| 0 <= a < b < |ring| && ring[a] != ring[b];
    var starved := if ring[a] == ring[i] then ring[b] else ring[a];
    forall k: nat ensures PickAt(Some(ring[i]), ring, k) == ring[i] {
      RepeatStarvesOthers(ring, i, j, k);
    }
    assert starved in ring && starved !in Picks(Some(ring[i]), ring, |ring|);
  }

  // ---------- a cursor shared with other queries ----------

  /** The next selection starts again at the least candidate. */
  predicate AtEnd(cursor: Option<ClientId>, ring: seq<ClientId>)
    requires ring != []
  {
    cursor.None? || cursor.value !in ring || cursor.value == ring[|ring| - 1]
  }

  /** The cursors are on the same candidate, or both make the selection start again. */
  predicate SameTurn(a: Option<ClientId>, b: Option<ClientId>, ring: seq<ClientId>)
    requires ring != []
  {
    a == b || (AtEnd(a, ring) && AtEnd(b, ring))
  }

  lemma AtEndStartsAgain(cursor: Option<ClientId>, ring: seq<ClientId>)
    requires ring != [] && Distinct(ring)
    ensures NextIndex(cursor, ring) == 0 <==> AtEnd(cursor, ring)
  {
    if cursor.Some? && cursor.value in ring {
      var i :| 0 <= i < |ring| && ring[i] == cursor.value;
      NextIsNeighbour(ring, i);
    }
  }

  /** Moving the cursor leaves the next selection unchanged exactly when it is the same turn as before. */
  lemma SameTurnExactly(a: Option<ClientId>, b: Option<ClientId>, ring: seq<ClientId>)
    requires ring != [] && Distinct(ring)
    ensures ring[NextIndex(a, ring)] == ring[NextIndex(b, ring)] <==> SameTurn(a, b, ring)
  {
    AtEndStartsAgain(a, ring);
    AtEndStartsAgain(b, ring);
    if !AtEnd(a, ring) && !AtEnd(b, ring) {
      var i :| 0 <= i < |ring| && ring[i] == a.value;
      var j :| 0 <= j < |ring| && ring[j] == b.value;
      NextIsNeighbour(ring, i);
      NextIsNeighbour(ring, j);
    }
  }

  /** Another query that selects `d` after a candidate was selected leaves the next selection unchanged
      exactly when `d` is that candidate, or the round is complete and `d` is no candidate. */
  lemma ForeignSelectionHarmless(ring: seq<ClientId>, i: nat, d: ClientId)
    requires Distinct(ring) && i < |ring|
    ensures ring[NextIndex(Some(d), ring)] == ring[NextIndex(Some(ring[i]), ring)]
            <==> d == ring[i] || (d !in ring && i == |ring| - 1)
  {
    SameTurnExactly(Some(d), Some(ring[i]), ring);
  }

  /** Queries sharing the cursor interfere: alternating between a two-client query and a query whose
      only client sorts outside it, the two-client query is served by its least client for ever. */
  lemma SharedCursorStarves(candidates: seq<ClientId>, other: ClientId)
    requires candidates != [] && other !in candidates
    ensures Next(Next(Some(other), candidates), [other]) == Some(other)
    ensures Next(Some(other), candidates) == Some(Sort(candidates)[0])
  {
    SortSorts(candidates);
    assert other !in Sort(candidates) by {
      assert other !in multiset(candidates);
      assert other !in multiset(Sort(candidates));
    }
    assert Next(Next(Some(other), candidates), [other]).value in [other];
  }
}

/** The handler index and the ongoing requests (src/domain/query_handlers.rs). */
module QueryHandlers {
  import opened Ids
  import opened Messages
  import opened RoundRobin

  /** The clients that can answer each query, in registration order. */
  type Index = map<QueryId, seq<ClientId>>

  /** A dispatched request that is waiting for its answer. */
  datatype Ongoing = Ongoing(
    requestId: RequestId, queryId: QueryId, parameters: map<string, string>,
    requester: ClientId, responder: ClientId, createdAt: int)
  {
    /** The same request resent. The parameters are not compared. */
    predicate IsSame(m: ClientMessage)
      requires m.QueryRequest?
    {
      requestId == m.requestId && queryId == m.queryId && requester == m.requester
    }
  }

  type OngoingRequests = map<RequestId, Ongoing>

  datatype Selection = Selected(client: ClientId) | HandlerNotFound | ResponderNotFound

  // ---------- the index as a value ----------

  function Lookup(index: Index, q: QueryId): seq<ClientId> {
    if q in index then index[q] else []
  }

  function AddAll(index: Index, c: ClientId, queries: seq<QueryId>): Index
    decreases |queries|
  {
    if queries == [] then index
    else AddAll(index[queries[0] := Lookup(index, queries[0]) + [c]], c, queries[1..])
  }

  function Without(xs: seq<ClientId>, c: ClientId): seq<ClientId> {
    if xs == [] then [] else (if xs[0] == c then [] else [xs[0]]) + Without(xs[1..], c)
  }

  function RemoveClient(index: Index, c: ClientId): Index {
    map q | q in index && Without(index[q], c) != [] :: Without(index[q], c)
  }

  function Select(index: Index, cursor: Option<ClientId>, q: QueryId): Selection {
    if Lookup(index, q) == [] then HandlerNotFound
    else match Next(cursor, Lookup(index, q))
      case Some(c) => Selected(c)
      case None => ResponderNotFound
  }

  /** The cursor moves only when there was a list to select from. */
  function SelectCursor(index: Index, cursor: Option<ClientId>, q: QueryId): Option<ClientId> {
    if Lookup(index, q) == [] then cursor else Next(cursor, Lookup(index, q))
  }

  ghost predicate NoEmptyLists(index: Index) {
    forall q :: q in index ==> index[q] != []
  }

  ghost predicate FiledUnderOwnId(ongoing: OngoingRequests) {
    forall r :: r in ongoing ==> ongoing[r].requestId == r
  }

  /** The requests older than `timeout`. */
  function ExpiredSet(ongoing: OngoingRequests, now: int, timeout: int): set<Ongoing> {
    set r | r in ongoing && now - ongoing[r].createdAt > timeout :: ongoing[r]
  }

  // ---------- the mutable object ----------

  class QueryHandler {
    var queryHandlers: Index
    var ongoing: OngoingRequests
    const strategy: RoundRobinStrategy

    /** No query is listed without a client, and every request is filed under its own id. */
    ghost predicate Valid()
      reads this
    {
      NoEmptyLists(queryHandlers) && FiledUnderOwnId(ongoing)
    }

    constructor ()
      ensures Valid() && queryHandlers == map[] && ongoing == map[]
      ensures fresh(strategy) && strategy.lastSelected == None
    {
      queryHandlers, ongoing := map[], map[];
      strategy := new RoundRobinStrategy();
    }

    method AddClientQueryHandler(c: ClientId, queries: seq<QueryId>)
      modifies this`queryHandlers
      ensures queryHandlers == AddAll(old(queryHandlers), c, queries)
      ensures old(Valid()) ==> Valid()
    {
      ghost var was := queryHandlers;
      var i := 0;
      while i < |queries|
        invariant i <= |queries|
        invariant AddAll(queryHandlers, c, queries[i..]) == AddAll(old(queryHandlers), c, queries)
      {
        var q := queries[i];
        assert queries[i..][1..] == queries[i + 1..];
        queryHandlers := queryHandlers[q := Lookup(queryHandlers, q) + [c]];
        i := i + 1;
      }
      if NoEmptyLists(was) {
        AddKeepsNonEmpty(was, c, queries);
      }
    }

    method DisconnectClient(c: ClientId)
      modifies this`queryHandlers
      ensures queryHandlers == RemoveClient(old(queryHandlers), c)
      ensures old(Valid()) ==> Valid()
    {
      var todo := queryHandlers.Keys;
      while todo != {}
        invariant todo <= queryHandlers.Keys && todo <= old(queryHandlers).Keys
        invariant forall q :: q in todo ==> queryHandlers[q] == old(queryHandlers)[q]
        invariant forall q :: q !in todo ==> (q in queryHandlers <==> q in RemoveClient(old(queryHandlers), c))
        invariant forall q :: q !in todo && q in queryHandlers ==>
                    queryHandlers[q] == RemoveClient(old(queryHandlers), c)[q]
        decreases todo
      {
        var q :| q in todo;
        var clients := Without(queryHandlers[q], c);
        if clients == [] {
          queryHandlers := queryHandlers - {q};
        } else {
          queryHandlers := queryHandlers[q := clients];
        }
        todo := todo - {q};
      }
    }

    method GetClientIdForQueryId(q: QueryId) returns (selection: Selection)
      modifies strategy
      ensures selection == Select(queryHandlers, old(strategy.lastSelected), q)
      ensures strategy.lastSelected == SelectCursor(queryHandlers, old(strategy.lastSelected), q)
    {
      if q !in queryHandlers || queryHandlers[q] == [] {
        return HandlerNotFound;
      }
      var next := strategy.Select(queryHandlers[q]);
      match next {
        case Some(c) => selection := Selected(c);
        case None => selection := ResponderNotFound;
      }
    }

    method GetQueryHandlersForClientId(c: ClientId) returns (queries: seq<QueryId>)
      ensures Lists(queries, set q | q in queryHandlers && c in queryHandlers[q])
    {
      var todo := queryHandlers.Keys;
      queries := [];
      while todo != {}
        invariant todo <= queryHandlers.Keys
        invariant Lists(queries, set q | q in queryHandlers && q !in todo && c in queryHandlers[q])
        decreases todo
      {
        var q :| q in todo;
        ghost var done := set q | q in queryHandlers && q !in todo && c in queryHandlers[q];
        todo := todo - {q};
        ghost var done' := set q | q in queryHandlers && q !in todo && c in queryHandlers[q];
        if c in queryHandlers[q] {
          ListsExtend(queries, done, q, done');
          queries := queries + [q];
        } else {
          assert done' == done;
        }
      }
    }

    method GetOngoingRequest(r: RequestId) returns (found: Option<Ongoing>)
      ensures found == if r in ongoing then Some(ongoing[r]) else None
    {
      found := if r in ongoing then Some(ongoing[r]) else None;
    }

    method GetExpiredRequests(now: int, timeout: int) returns (expired: seq<Ongoing>)
      requires Valid()
      ensures Lists(expired, ExpiredSet(ongoing, now, timeout))
    {
      var todo := ongoing.Keys;
      expired := [];
      while todo != {}
        invariant todo <= ongoing.Keys
        invariant Lists(expired, set r | r in ongoing && r !in todo
                  && now - ongoing[r].createdAt > timeout :: ongoing[r])
        decreases todo
      {
        var r :| r in todo;
        ghost var done := set r | r in ongoing && r !in todo && now - ongoing[r].createdAt > timeout :: ongoing[r];
        todo := todo - {r};
        ghost var done' := set r | r in ongoing && r !in todo && now - ongoing[r].createdAt > timeout :: ongoing[r];
        if now - ongoing[r].createdAt > timeout {
          ListsExtend(expired, done, ongoing[r], done');
          expired := expired + [ongoing[r]];
        } else {
          assert done' == done;
        }
      }
    }

    method HandleQueryRequestedEvent(request: Ongoing)
      modifies this`ongoing
      ensures ongoing == old(ongoing)[request.requestId := request]
      ensures old(Valid()) ==> Valid()
    {
      ongoing := ongoing[request.requestId := request];
    }

    method RemoveOngoingRequest(r: RequestId) returns (removed: Option<Ongoing>)
      modifies this`ongoing
      ensures ongoing == old(ongoing) - {r}
      ensures old(Valid()) ==> Valid()
      ensures removed == if r in old(ongoing) then Some(old(ongoing)[r]) else None
    {
      removed := if r in ongoing then Some(ongoing[r]) else None;
      ongoing := ongoing - {r};
    }
  }

  // ---------- facts about the index ----------

  /** `copies` copies of `c`. */
  function Copies(c: ClientId, copies: nat): (cs: seq<ClientId>)
    ensures |cs| == copies
    ensures forall d :: d in cs ==> d == c
  {
    if copies == 0 then [] else Copies(c, copies - 1) + [c]
  }

  function Occurrences(queries: seq<QueryId>, q: QueryId): nat {
    if queries == [] then 0 else (if queries[0] == q then 1 else 0) + Occurrences(queries[1..], q)
  }

  lemma {:induction false} CopiesFromFront(c: ClientId, copies: nat)
    ensures [c] + Copies(c, copies) == Copies(c, copies + 1)
  {
    if copies > 0 {
      CopiesFromFront(c, copies - 1);
      assert [c] + Copies(c, copies) == [c] + Copies(c, copies - 1) + [c];
    }
  }

  /** Declaring a list appends the client to each query's list once per occurrence. */
  lemma {:induction false} LookupAfterAdd(index: Index, c: ClientId, queries: seq<QueryId>, q: QueryId)
    ensures Lookup(AddAll(index, c, queries), q) == Lookup(index, q) + Copies(c, Occurrences(queries, q))
    decreases |queries|
  {
    if queries != [] {
      var q0 := queries[0];
      var index' := index[q0 := Lookup(index, q0) + [c]];
      LookupAfterAdd(index', c, queries[1..], q);
      var rest := Copies(c, Occurrences(queries[1..], q));
      if q == q0 {
        CopiesFromFront(c, Occurrences(queries[1..], q));
        assert Lookup(index, q) + [c] + rest == Lookup(index, q) + ([c] + rest);
      }
    }
  }

  lemma {:induction false} AddKeepsNonEmpty(index: Index, c: ClientId, queries: seq<QueryId>)
    requires NoEmptyLists(index)
    ensures NoEmptyLists(AddAll(index, c, queries))
    decreases |queries|
  {
    if queries != [] {
      AddKeepsNonEmpty(index[queries[0] := Lookup(index, queries[0]) + [c]], c, queries[1..]);
    }
  }

  lemma {:induction false} WithoutMembers(xs: seq<ClientId>, c: ClientId)
    ensures forall d :: d in Without(xs, c) <==> d in xs && d != c
    ensures c !in xs ==> Without(xs, c) == xs
  {
    if xs != [] {
      assert xs == [xs[0]] + xs[1..];
      WithoutMembers(xs[1..], c);
    }
  }

  lemma {:induction false} WithoutAppend(xs: seq<ClientId>, ys: seq<ClientId>, c: ClientId)
    ensures Without(xs + ys, c) == Without(xs, c) + Without(ys, c)
  {
    if xs == [] {
      assert xs + ys == ys;
    } else {
      assert (xs + ys)[1..] == xs[1..] + ys;
      WithoutAppend(xs[1..], ys, c);
    }
  }

  lemma {:induction false} WithoutCopies(d: ClientId, copies: nat, c: ClientId)
    ensures Without(Copies(d, copies), c) == if d == c then [] else Copies(d, copies)
  {
    if d != c {
      WithoutMembers(Copies(d, copies), c);
    } else if copies > 0 {
      WithoutCopies(d, copies - 1, c);
      WithoutAppend(Copies(d, copies - 1), [d], c);
    }
  }

  lemma LookupAfterRemove(index: Index, c: ClientId, q: QueryId)
    ensures Lookup(RemoveClient(index, c), q) == Without(Lookup(index, q), c)
  {
  }

  /** An index without empty lists is determined by its lookups. */
  lemma IndexExtensional(a: Index, b: Index)
    requires NoEmptyLists(a) && NoEmptyLists(b)
    requires forall q :: Lookup(a, q) == Lookup(b, q)
    ensures a == b
  {
    assert forall q :: q in a <==> Lookup(a, q) != [];
    assert forall q :: q in b <==> Lookup(b, q) != [];
    assert a.Keys == b.Keys;
    forall q | q in a ensures a[q] == b[q] {
      assert Lookup(a, q) == Lookup(b, q);
    }
  }

  /** Selection returns a member of the current list, and finds none exactly when the list is empty. */
  lemma SelectReturnsMember(index: Index, cursor: Option<ClientId>, q: QueryId)
    ensures Select(index, cursor, q) != ResponderNotFound
    ensures Select(index, cursor, q) == HandlerNotFound <==> Lookup(index, q) == []
    ensures Select(index, cursor, q).Selected? ==> Select(index, cursor, q).client in Lookup(index, q)
  {
    if Lookup(index, q) != [] {
      NextIsCandidate(cursor, Lookup(index, q));
    }
  }
}

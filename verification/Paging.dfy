/** Listing connected clients page by page
    (src/domain/state.rs:50-82, src/api/rest/mod.rs:25-80, src/api/rest/clients_handler.rs:13-93). */
module Paging {
  import opened Ids
  import opened StateMachine
  import opened State

  const MAX_OFFSET: nat := 100_000
  const MAX_LIMIT: nat := 100

  /** The query part of a pagination link. */
  datatype Link = Link(offset: nat, limit: nat)

  datatype Page = Page(
    content: seq<ClientId>, offset: nat, limit: nat, size: nat, totalElements: nat, totalPages: nat,
    next: Option<Link>, prev: Option<Link>)

  datatype FieldError = OffsetTooLarge | LimitOutOfRange

  datatype Response = Accepted(page: Page) | Rejected(errors: seq<FieldError>)

  datatype PageResponse = PageResponse(items: seq<(ClientId, ClientInfo)>, totalCount: nat)

  function Min(a: nat, b: nat): nat { if a < b then a else b }

  /** Division rounding up. */
  function DivCeil(a: nat, b: nat): nat
    requires b > 0
  {
    a / b + if a % b > 0 then 1 else 0
  }

  /** How many pages of `limit` clients it takes to show `n`. */
  function TotalPages(n: nat, limit: nat): nat
    requires limit > 0
    decreases n
  {
    if n == 0 then 0 else if n <= limit then 1 else 1 + TotalPages(n - limit, limit)
  }

  /** What page `offset`, `limit` of the clients `sorted` holds. */
  function Slice(sorted: seq<ClientId>, offset: nat, limit: nat): seq<ClientId> {
    if offset >= |sorted| then [] else sorted[offset..Min(offset + limit, |sorted|)]
  }

  function PageFor(sorted: seq<ClientId>, offset: nat, limit: nat): Response {
    var errors := (if offset > MAX_OFFSET then [OffsetTooLarge] else [])
                + (if limit == 0 || limit > MAX_LIMIT then [LimitOutOfRange] else []);
    if errors != [] then Rejected(errors)
    else
      var n, content := |sorted|, Slice(sorted, offset, limit);
      Accepted(Page(content, offset, limit, |content|, n, TotalPages(n, limit),
                    if offset + limit < n then Some(Link(offset + limit, limit)) else None,
                    if offset > 0 then Some(Link(if offset < limit then 0 else offset - limit, limit)) else None))
  }

  /** The connected clients in the order pages show them. */
  ghost predicate IsSortedListing(sorted: seq<ClientId>, clients: set<ClientId>) {
    Sorted(sorted) && Lists(sorted, clients)
  }

  lemma SortedListingExists(clients: set<ClientId>)
    ensures exists ids :: IsSortedListing(ids, clients)
  {
    var order := SomeListing(clients);
    SortSorts(order);
    SortKeepsDistinct(order);
    assert IsSortedListing(Sort(order), clients);
  }

  /** The connected clients sorted by id. */
  ghost function Listing(clients: set<ClientId>): (ids: seq<ClientId>)
    ensures IsSortedListing(ids, clients)
  {
    SortedListingExists(clients);
    var ids :| IsSortedListing(ids, clients);
    ids
  }

  lemma {:induction false} ListingSize<T(!new)>(xs: seq<T>, s: set<T>)
    requires Lists(xs, s)
    ensures |xs| == |s|
  {
    if xs == [] {
      assert s == {};
    } else {
      var front, last := xs[..|xs| - 1], xs[|xs| - 1];
      assert xs == front + [last];
      assert forall x :: x in front <==> x in s - {last};
      ListingSize(front, s - {last});
    }
  }

  /** Ids paired with their records. */
  function Records(ids: seq<ClientId>, clients: map<ClientId, ClientInfo>): seq<(ClientId, ClientInfo)>
    requires forall c :: c in ids ==> c in clients
  {
    seq(|ids|, i requires 0 <= i < |ids| => (ids[i], clients[ids[i]]))
  }

  /** The clients of one page with their records, and how many clients there are. */
  function ResponseFor(sorted: seq<ClientId>, clients: map<ClientId, ClientInfo>, offset: nat, limit: nat): PageResponse
    requires forall c :: c in sorted ==> c in clients
  {
    PageResponse(Records(Slice(sorted, offset, limit), clients), |sorted|)
  }

  method SortedIds(clients: map<ClientId, ClientInfo>) returns (ids: seq<ClientId>)
    ensures IsSortedListing(ids, clients.Keys) && |ids| == |clients|
  {
    var order := CollectIds(clients);
    ids := Sort(order);
    SortSorts(order);
    SortKeepsDistinct(order);
    ListingSize(order, clients.Keys);
  }

  /** There is one sorted listing of a set of clients. */
  lemma SortedListingIsUnique(xs: seq<ClientId>, ys: seq<ClientId>, clients: set<ClientId>)
    requires IsSortedListing(xs, clients) && IsSortedListing(ys, clients)
    ensures xs == ys
  {
    ListingsPermute(xs, ys, clients);
    SortedIsUnique(xs, ys);
  }

  method GetConnectedClients(state: State, offset: nat, limit: nat) returns (response: PageResponse)
    ensures response == ResponseFor(Listing(state.connectedClients.Keys), state.connectedClients, offset, limit)
  {
    var clients := state.connectedClients;
    var totalCount := |clients|;
    ListingSize(Listing(clients.Keys), clients.Keys);
    if limit == 0 || totalCount == 0 || offset >= totalCount {
      return PageResponse([], totalCount);
    }
    var ids := SortedIds(clients);
    SortedListingIsUnique(ids, Listing(clients.Keys), clients.Keys);
    var end := Min(offset + limit, totalCount);
    response := PageResponse(Records(ids[offset..end], clients), totalCount);
  }

  /** The ids in the order the hash table happens to be iterated. */
  method CollectIds(clients: map<ClientId, ClientInfo>) returns (order: seq<ClientId>)
    ensures Lists(order, clients.Keys)
  {
    var todo := clients.Keys;
    order := [];
    while todo != {}
      invariant todo <= clients.Keys && Lists(order, clients.Keys - todo)
      decreases todo
    {
      var c :| c in todo;
      ListsExtend(order, clients.Keys - todo, c, clients.Keys - (todo - {c}));
      order := order + [c];
      todo := todo - {c};
    }
    assert clients.Keys - todo == clients.Keys;
  }

  /** The REST handler; `Page::new` and `with_pagination_links` are its last assignments. */
  method GetClientsPage(state: State, offset: nat, limit: nat) returns (response: Response)
    ensures response == PageFor(Listing(state.connectedClients.Keys), offset, limit)
  {
    var errors: seq<FieldError> := [];
    if offset > MAX_OFFSET {
      errors := errors + [OffsetTooLarge];
    }
    if limit == 0 || limit > MAX_LIMIT {
      errors := errors + [LimitOutOfRange];
    }
    if errors != [] {
      return Rejected(errors);
    }
    var found := GetConnectedClients(state, offset, limit);
    var content := seq(|found.items|, i requires 0 <= i < |found.items| => found.items[i].0);
    assert content == Slice(Listing(state.connectedClients.Keys), offset, limit);
    var total := found.totalCount;
    var totalPages := if total == 0 then 0 else DivCeil(total, limit);
    DivCeilCountsPages(total, limit);
    var page := Page(content, offset, limit, |content|, total, totalPages, None, None);
    if page.offset > 0 {
      page := page.(prev := Some(Link(if page.offset < page.limit then 0 else page.offset - page.limit, page.limit)));
    }
    if page.offset + page.limit < page.totalElements {
      page := page.(next := Some(Link(page.offset + page.limit, page.limit)));
    }
    response := Accepted(page);
  }

  // ---------- following `next` ----------

  /** The responses a client gets by following `next` from `offset`. */
  function Walk(sorted: seq<ClientId>, offset: nat, limit: nat): seq<Response>
    decreases |sorted| - offset
  {
    var r := PageFor(sorted, offset, limit);
    if r.Accepted? && r.page.next.Some?
    then [r] + Walk(sorted, r.page.next.value.offset, r.page.next.value.limit)
    else [r]
  }

  predicate AllAccepted(rs: seq<Response>) {
    rs == [] || (rs[0].Accepted? && AllAccepted(rs[1..]))
  }

  function Contents(rs: seq<Response>): seq<ClientId> {
    if rs == [] then []
    else (if rs[0].Accepted? then rs[0].page.content else []) + Contents(rs[1..])
  }

  /** The offset of the last page reached from `offset`. */
  function LastOffset(n: nat, offset: nat, limit: nat): nat
    requires limit > 0
    decreases n - offset
  {
    if offset + limit < n then LastOffset(n, offset + limit, limit) else offset
  }

  lemma MulGrows(d: int, b: nat)
    requires b > 0
    ensures d >= 1 ==> d * b >= b
    ensures d <= -1 ==> d * b + b <= 0
  {
  }

  lemma {:induction false} Quotient(a: nat, b: nat, q: nat, r: nat)
    requires b > 0 && a == q * b + r && r < b
    ensures a / b == q && a % b == r
  {
    var d := a / b - q;
    assert d * b == (a / b) * b - q * b;
    MulGrows(d, b);
  }

  /** Rounding the quotient up counts the pages. */
  lemma {:induction false} DivCeilCountsPages(n: nat, limit: nat)
    requires limit > 0
    ensures TotalPages(n, limit) == if n == 0 then 0 else DivCeil(n, limit)
    decreases n
  {
    if n > limit {
      DivCeilCountsPages(n - limit, limit);
      var q, r := (n - limit) / limit, (n - limit) % limit;
      assert n == (q + 1) * limit + r by {
        assert (q + 1) * limit == q * limit + limit;
      }
      Quotient(n, limit, q + 1, r);
    } else if 0 < n < limit {
      Quotient(n, limit, 0, n);
    } else if n == limit {
      Quotient(n, limit, 1, 0);
    }
  }

  lemma {:induction false} LastOffsetGrows(n: nat, offset: nat, limit: nat)
    requires limit > 0
    ensures offset <= LastOffset(n, offset, limit) && (offset < n ==> LastOffset(n, offset, limit) < n)
    decreases n - offset
  {
    if offset + limit < n {
      LastOffsetGrows(n, offset + limit, limit);
    }
  }

  /** The last offset from 0 is the largest multiple of the limit below the population. */
  lemma {:induction false} LastOffsetIsMultiple(n: nat, offset: nat, limit: nat)
    requires limit > 0 && offset < n
    ensures LastOffset(n, offset, limit) == n - 1 - (n - 1 - offset) % limit
    decreases n - offset
  {
    var a := n - 1 - offset;
    if offset + limit < n {
      LastOffsetIsMultiple(n, offset + limit, limit);
      var q, r := (a - limit) / limit, (a - limit) % limit;
      assert a == (q + 1) * limit + r by {
        assert (q + 1) * limit == q * limit + limit;
      }
      Quotient(a, limit, q + 1, r);
    } else {
      Quotient(a, limit, 0, a);
    }
  }

  /** The walk from `offset` is accepted throughout exactly when its last offset is allowed. */
  lemma {:induction false} WalkAccepted(sorted: seq<ClientId>, offset: nat, limit: nat)
    requires 0 < limit <= MAX_LIMIT
    ensures AllAccepted(Walk(sorted, offset, limit)) <==> LastOffset(|sorted|, offset, limit) <= MAX_OFFSET
    decreases |sorted| - offset
  {
    LastOffsetGrows(|sorted|, offset, limit);
    var r := PageFor(sorted, offset, limit);
    assert r.Accepted? <==> offset <= MAX_OFFSET;
    if r.Accepted? && offset + limit < |sorted| {
      WalkAccepted(sorted, offset + limit, limit);
      AcceptedMore(r, Walk(sorted, offset + limit, limit));
    } else {
      AcceptedOne(r);
    }
  }

  lemma AcceptedOne(r: Response)
    ensures AllAccepted([r]) <==> r.Accepted?
  {
  }

  lemma AcceptedMore(r: Response, rest: seq<Response>)
    ensures AllAccepted([r] + rest) <==> r.Accepted? && AllAccepted(rest)
  {
    assert ([r] + rest)[1..] == rest;
  }

  lemma ContentsOfMore(r: Response, rest: seq<Response>)
    ensures Contents([r] + rest) == (if r.Accepted? then r.page.content else []) + Contents(rest)
  {
    assert ([r] + rest)[1..] == rest;
  }

  /** A page within the bounds. */
  lemma PageInBounds(sorted: seq<ClientId>, offset: nat, limit: nat)
    requires 0 < limit <= MAX_LIMIT && offset <= MAX_OFFSET
    ensures var r := PageFor(sorted, offset, limit);
            r.Accepted? && r.page.content == Slice(sorted, offset, limit)
            && r.page.next == if offset + limit < |sorted| then Some(Link(offset + limit, limit)) else None
  {
  }

  lemma SliceThenRest(sorted: seq<ClientId>, offset: nat, limit: nat)
    requires offset <= |sorted|
    ensures Slice(sorted, offset, limit) + sorted[Min(offset + limit, |sorted|)..] == sorted[offset..]
  {
  }

  /** An accepted walk shows the rest of the listing. */
  lemma {:induction false} WalkContents(sorted: seq<ClientId>, offset: nat, limit: nat)
    requires 0 < limit <= MAX_LIMIT && offset <= |sorted| && LastOffset(|sorted|, offset, limit) <= MAX_OFFSET
    ensures Contents(Walk(sorted, offset, limit)) == sorted[offset..]
    decreases |sorted| - offset
  {
    var r := PageFor(sorted, offset, limit);
    LastOffsetGrows(|sorted|, offset, limit);
    PageInBounds(sorted, offset, limit);
    SliceThenRest(sorted, offset, limit);
    if offset + limit < |sorted| {
      WalkContents(sorted, offset + limit, limit);
      ContentsOfMore(r, Walk(sorted, offset + limit, limit));
    } else {
      ContentsOfMore(r, []);
      assert [r] + [] == [r];
    }
  }

  /** An accepted walk takes as many pages as the rest of the listing needs. */
  lemma {:induction false} WalkLength(sorted: seq<ClientId>, offset: nat, limit: nat)
    requires 0 < limit <= MAX_LIMIT && (offset < |sorted| || offset == 0)
             && LastOffset(|sorted|, offset, limit) <= MAX_OFFSET
    ensures |Walk(sorted, offset, limit)| == if sorted == [] then 1 else TotalPages(|sorted| - offset, limit)
    decreases |sorted| - offset
  {
    LastOffsetGrows(|sorted|, offset, limit);
    PageInBounds(sorted, offset, limit);
    if offset + limit < |sorted| {
      WalkLength(sorted, offset + limit, limit);
    }
  }

  /** The offset of the last of the pages that show `n` clients. */
  function LastPageOffset(n: nat, limit: nat): nat
    requires limit > 0
  {
    if n == 0 then 0 else n - 1 - (n - 1) % limit
  }

  lemma LastOffsetFromZero(n: nat, limit: nat)
    requires limit > 0
    ensures LastOffset(n, 0, limit) == LastPageOffset(n, limit) && (LastPageOffset(n, limit) < n || n == 0)
  {
    LastOffsetGrows(n, 0, limit);
    if n > 0 {
      LastOffsetIsMultiple(n, 0, limit);
    }
  }

  lemma WalkFromZero(sorted: seq<ClientId>, limit: nat)
    requires 0 < limit <= MAX_LIMIT && LastOffset(|sorted|, 0, limit) <= MAX_OFFSET
    ensures Contents(Walk(sorted, 0, limit)) == sorted
    ensures |Walk(sorted, 0, limit)| == if sorted == [] then 1 else TotalPages(|sorted|, limit)
  {
    WalkContents(sorted, 0, limit);
    WalkLength(sorted, 0, limit);
    assert sorted[0..] == sorted;
  }

  /** Page walk: for any population and any accepted limit, following `next` from offset 0 is accepted throughout
      exactly when the last page's offset is within the maximum, as it is for up to 100,001 clients. Then it yields
      exactly `total_pages` pages (one empty page if there are no clients) whose contents concatenate to the sorted
      listing. */
  lemma {:induction false} PageWalk(sorted: seq<ClientId>, clients: set<ClientId>, limit: nat)
    requires IsSortedListing(sorted, clients) && 0 < limit <= MAX_LIMIT
    ensures AllAccepted(Walk(sorted, 0, limit)) <==> LastPageOffset(|clients|, limit) <= MAX_OFFSET
    ensures |clients| <= MAX_OFFSET + 1 ==> AllAccepted(Walk(sorted, 0, limit))
    ensures AllAccepted(Walk(sorted, 0, limit)) ==>
              && Contents(Walk(sorted, 0, limit)) == sorted
              && |Walk(sorted, 0, limit)| == if clients == {} then 1 else TotalPages(|clients|, limit)
  {
    ListingSize(sorted, clients);
    WalkAccepted(sorted, 0, limit);
    LastOffsetFromZero(|clients|, limit);
    if LastPageOffset(|clients|, limit) <= MAX_OFFSET {
      WalkFromZero(sorted, limit);
    }
    assert clients == {} <==> |clients| == 0;
  }

  /** `prev` of a `next` page returns to the starting offset. */
  lemma PrevOfNextReturns(sorted: seq<ClientId>, offset: nat, limit: nat)
    requires PageFor(sorted, offset, limit).Accepted? && PageFor(sorted, offset, limit).page.next.Some?
    requires offset + limit <= MAX_OFFSET
    ensures var link := PageFor(sorted, offset, limit).page.next.value;
            var there := PageFor(sorted, link.offset, link.limit);
            there.Accepted? && there.page.prev == Some(Link(offset, limit))
  {
  }

  // ---------- what a page says about itself ----------

  /** Rounding up: the last page is needed and is enough. */
  lemma {:induction false} TotalPagesSuffice(n: nat, limit: nat)
    requires limit > 0
    ensures n > 0 ==> (TotalPages(n, limit) - 1) * limit < n <= TotalPages(n, limit) * limit
    ensures TotalPages(n, limit) == 0 <==> n == 0
    decreases n
  {
    if n > limit {
      TotalPagesSuffice(n - limit, limit);
      var k := TotalPages(n - limit, limit);
      assert (k + 1) * limit == k * limit + limit && (k - 1) * limit == k * limit - limit;
    }
  }

  /** Which requests are rejected, and why. */
  lemma RejectedExactly(sorted: seq<ClientId>, offset: nat, limit: nat)
    ensures var r := PageFor(sorted, offset, limit);
            && (r.Accepted? <==> offset <= 100_000 && 1 <= limit <= 100)
            && (r.Rejected? ==>
                  && (OffsetTooLarge in r.errors <==> offset > 100_000)
                  && (LimitOutOfRange in r.errors <==> limit == 0 || limit > 100)
                  && |r.errors| == (if offset > 100_000 then 1 else 0) + (if limit == 0 || limit > 100 then 1 else 0))
  {
  }

  /** An accepted page reports the population, its own size and the number of pages, holds the clients from its offset
      on, and links to the neighbouring pages exactly when there are any. */
  lemma PageReports(sorted: seq<ClientId>, offset: nat, limit: nat)
    requires PageFor(sorted, offset, limit).Accepted?
    ensures var page := PageFor(sorted, offset, limit).page;
            && page.offset == offset && page.limit == limit
            && page.totalElements == |sorted| && page.size == |page.content| <= limit
            && (if sorted == [] then page.totalPages == 0
                else (page.totalPages - 1) * limit < |sorted| <= page.totalPages * limit)
    ensures var page := PageFor(sorted, offset, limit).page;
            && (forall i :: 0 <= i < |page.content| ==> offset + i < |sorted| && page.content[i] == sorted[offset + i])
            && (page.size == limit || offset + page.size >= |sorted|)
    ensures var page := PageFor(sorted, offset, limit).page;
            && (page.prev.None? <==> offset == 0)
            && (offset >= limit ==> page.prev == Some(Link(offset - limit, limit)))
            && (0 < offset < limit ==> page.prev == Some(Link(0, limit)))
            && (page.next.None? <==> offset + limit >= |sorted|)
            && (page.next.Some? ==> page.next.value == Link(offset + limit, limit))
  {
    TotalPagesSuffice(|sorted|, limit);
  }

  /** All pages of a walk report the same number of pages. */
  lemma {:induction false} WalkReports(sorted: seq<ClientId>, offset: nat, limit: nat, k: nat)
    requires AllAccepted(Walk(sorted, offset, limit)) && k < |Walk(sorted, offset, limit)|
    ensures Walk(sorted, offset, limit)[k].Accepted?
    ensures Walk(sorted, offset, limit)[k].page.totalPages == PageFor(sorted, offset, limit).page.totalPages
    decreases |sorted| - offset
  {
    var r := PageFor(sorted, offset, limit);
    if k > 0 {
      var rest := Walk(sorted, offset + limit, limit);
      assert Walk(sorted, offset, limit) == [r] + rest;
      AcceptedMore(r, rest);
      WalkReports(sorted, offset + limit, limit, k - 1);
    }
  }

  /** An accepted walk has as many pages as each of its pages reports (or one, if there are no clients). */
  lemma WalkHasReportedPages(sorted: seq<ClientId>, clients: set<ClientId>, limit: nat, k: nat)
    requires IsSortedListing(sorted, clients) && 0 < limit <= MAX_LIMIT
    requires AllAccepted(Walk(sorted, 0, limit)) && k < |Walk(sorted, 0, limit)|
    ensures Walk(sorted, 0, limit)[k].Accepted?
    ensures var reported := Walk(sorted, 0, limit)[k].page.totalPages;
            |Walk(sorted, 0, limit)| == if clients == {} then 1 else reported
  {
    PageWalk(sorted, clients, limit);
    ListingSize(sorted, clients);
    WalkReports(sorted, 0, limit, k);
    SamePages(|sorted|, limit, PageFor(sorted, 0, limit).page.totalPages);
    PageReports(sorted, 0, limit);
  }

  /** There is only one number of pages that is needed and enough. */
  lemma SamePages(n: nat, limit: nat, pages: nat)
    requires limit > 0
    ensures (if n == 0 then pages == 0 else (pages - 1) * limit < n <= pages * limit) ==> pages == TotalPages(n, limit)
  {
    TotalPagesSuffice(n, limit);
    var k := TotalPages(n, limit);
    if n > 0 && (pages - 1) * limit < n <= pages * limit {
      MulOrder(pages - 1, k, limit);
      MulOrder(k - 1, pages, limit);
    }
  }

  lemma MulOrder(a: int, b: int, limit: nat)
    requires limit > 0
    ensures a * limit < b * limit ==> a < b
  {
    MulGrows(a - b, limit);
    assert (a - b) * limit == a * limit - b * limit;
  }
}

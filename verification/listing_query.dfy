/** `useAuctions(page, limit, searchParams)`: the query the public auction
    listing sends. It copies the incoming params and forces the page, the
    page size, the IN_PROGRESS status and both date bounds to one `now`
    (the ISO string of the current time, a parameter here).
 */
module ListingQuery {
  import opened Wrappers
  import opened QueryParams
  import opened Text
  import opened Entities

  const ForcedKeys: set<string> := {"page", "limit", "auctionStatus", "startDateTo", "endDateFrom"}

  /** The five `query.set` calls, in source order. */
  function BuildQuery(ps: Params, page: int, limit: int, now: string): (r: Params)
    ensures Values(r, "page") == [IntToString(page)]
    ensures Values(r, "limit") == [IntToString(limit)]
    ensures Values(r, "auctionStatus") == ["IN_PROGRESS"]
    ensures Values(r, "startDateTo") == [now] && Values(r, "endDateFrom") == [now]
    ensures forall k :: k !in ForcedKeys ==> Values(r, k) == Values(ps, k)
    ensures Without(r, ForcedKeys) == Without(ps, ForcedKeys)
  {
    var q1 := Set(ps, "page", IntToString(page));
    var q2 := Set(q1, "limit", IntToString(limit));
    var q3 := Set(q2, "auctionStatus", "IN_PROGRESS");
    var q4 := Set(q3, "startDateTo", now);
    var q5 := Set(q4, "endDateFrom", now);
    SetKeepsOthers(ps, "page", IntToString(page), ForcedKeys);
    SetKeepsOthers(q1, "limit", IntToString(limit), ForcedKeys);
    SetKeepsOthers(q2, "auctionStatus", "IN_PROGRESS", ForcedKeys);
    SetKeepsOthers(q3, "startDateTo", now, ForcedKeys);
    SetKeepsOthers(q4, "endDateFrom", now, ForcedKeys);
    q5
  }

  /** Whatever status the incoming params ask for, the listing asks for
      IN_PROGRESS, and the two date bounds agree. */
  lemma StatusAlwaysInProgress(ps: Params, page: int, limit: int, now: string)
    ensures Get(BuildQuery(ps, page, limit, now), "auctionStatus") == Some("IN_PROGRESS")
    ensures Get(BuildQuery(ps, page, limit, now), "startDateTo") == Get(BuildQuery(ps, page, limit, now), "endDateFrom")
  {
  }

  /** The hook's state after a fetch: the auctions and page count received,
      or an empty list and one page on failure. */
  function Fetch(response: Net<(seq<Auction>, int)>): (r: (seq<Auction>, int))
    ensures response.Failed? ==> r == ([], 1)
    ensures response.Ok? ==> r.0 == response.value.0 && r.1 == response.value.1
  {
    if response.Ok? then response.value else ([], 1)
  }
}

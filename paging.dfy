/** The pagination clamp of the listing endpoints (`list_contracts`,
    `list_factions`, `list_ships`, `list_systems`,
    `list_waypoints_in_system`): the page size is forced into 1..20 and the
    page number up to at least 1 before the request is sent. */
module Paging {
  const MinLimit := 1
  const MaxLimit := 20
  const MinPage := 1

  /** The defaults of the listing methods' `limit` and `page` arguments. */
  const DefaultLimit := 10
  const DefaultPage := 1

  /** The query parameters a listing request carries. */
  datatype Query = Query(limit: int, page: int)

  /** Distance between two integers. */
  function Dist(a: int, b: int): nat {
    if a <= b then b - a else a - b
  }

  /** The page size actually requested: the point of 1..20 nearest to the
      one asked for. */
  function ClampLimit(limit: int): (r: int)
    ensures MinLimit <= r <= MaxLimit
    ensures MinLimit <= limit <= MaxLimit ==> r == limit
    ensures forall k :: MinLimit <= k <= MaxLimit ==> Dist(r, limit) <= Dist(k, limit)
  {
    if limit > MaxLimit then MaxLimit else if limit < MinLimit then MinLimit else limit
  }

  /** The page actually requested: at least 1, and unchanged when it is. */
  function ClampPage(page: int): (r: int)
    ensures r >= MinPage
    ensures page >= MinPage ==> r == page
    ensures forall k :: k >= MinPage ==> Dist(r, page) <= Dist(k, page)
  {
    if page < MinPage then MinPage else page
  }

  /** The clamp as the listing methods write it: three `if` statements that
      reassign `limit` and `page` in turn. */
  method Clamp(limit: int, page: int) returns (q: Query)
    ensures q == Query(ClampLimit(limit), ClampPage(page))
    ensures MinLimit <= q.limit <= MaxLimit && q.page >= MinPage
  {
    var l, p := limit, page;
    if l > MaxLimit {
      l := MaxLimit;
    }
    if l < MinLimit {
      l := MinLimit;
    }
    if p < MinPage {
      p := MinPage;
    }
    q := Query(l, p);
  }

  /** Clamping an already clamped query changes nothing. */
  lemma ClampIdempotent(limit: int, page: int)
    ensures ClampLimit(ClampLimit(limit)) == ClampLimit(limit)
    ensures ClampPage(ClampPage(page)) == ClampPage(page)
  {
  }

  /** Any two limits of the same side of the range ask for the same page
      size: every limit above 20 asks for 20, every limit below 1 for 1. */
  lemma ClampSaturates(limit: int)
    ensures limit >= MaxLimit ==> ClampLimit(limit) == MaxLimit
    ensures limit <= MinLimit ==> ClampLimit(limit) == MinLimit
  {
  }

  /** A call that leaves both arguments at their defaults asks for page 1
      of 10 items: the defaults lie inside the clamped range. */
  lemma DefaultsPassThrough()
    ensures ClampLimit(DefaultLimit) == DefaultLimit && ClampPage(DefaultPage) == DefaultPage
  {
  }
}

/** `GET /api/experts`: the in-process part of the search, after the database has returned
    the page of expert rows. */
module ExpertSearch {
  import opened Common
  import opened Availability

  /** An expert row as far as the availability filter looks at it. */
  datatype ListedExpert = ListedExpert(id: string, availability: Weekly)

  /** Kept by the `available_now` filter: some slot of today's weekday holds the current hour. */
  predicate AvailableNow(e: ListedExpert, day: int, hour: int) {
    AvailableAt(e.availability, day, hour)
  }

  /** The `available_now` query parameter: the filter is on only for the exact string `true`. */
  function AvailableNowFlag(param: Option<string>): (on: bool)
    ensures on <==> param == Some("true")
  {
    param.Some? && param.value == "true"
  }

  /** `filteredExperts`: without the flag the rows as returned (possibly none); with it, the rows
      whose availability holds at the local weekday and hour, and `[]` when there were no rows. */
  function FilterAvailableNow(experts: Option<seq<ListedExpert>>, on: bool, day: int, hour: int)
    : (r: Option<seq<ListedExpert>>)
    ensures !on ==> r == experts
    ensures on ==> r.Some?
    ensures on && experts.None? ==> r == Some([])
    ensures on && experts.Some? ==>
      r == Some(Filter((e: ListedExpert) => AvailableNow(e, day, hour), experts.value))
  {
    if !on then experts
    else match experts
      case None => Some([])
      case Some(rows) => Some(Filter((e: ListedExpert) => AvailableNow(e, day, hour), rows))
  }

  /** With the flag, an expert stays exactly when it was returned and is available now, and the
      kept experts keep their rating order. */
  lemma {:induction false} FilterAvailableNowKeeps(rows: seq<ListedExpert>, day: int, hour: int, e: ListedExpert)
    ensures var kept := FilterAvailableNow(Some(rows), true, day, hour).value;
            (e in kept <==> e in rows && AvailableNow(e, day, hour)) &&
            IsSubsequence(kept, rows)
  {
    var p := (x: ListedExpert) => AvailableNow(x, day, hour);
    FilterIsSubsequence(p, rows);
    FilterMembership(p, rows, e);
  }

  /** The pagination block of the response for a page of `limit` rows at `page` (1-based),
      when the database reported `count` matching rows (`None`: no count). */
  datatype Pagination = Pagination(page: int, limit: int, total: int, hasMore: bool)

  /** The row offset the database range starts at. */
  function PageOffset(page: int, limit: int): int {
    (page - 1) * limit
  }

  function PaginationFor(page: int, limit: int, count: Option<int>): (r: Pagination)
    ensures r.total == (if count.Some? then count.value else 0)
    ensures r.hasMore <==> PageOffset(page, limit) + limit < r.total
    ensures r.page == page && r.limit == limit
  {
    var total := if count.Some? && count.value != 0 then count.value else 0;
    Pagination(page, limit, total, PageOffset(page, limit) + limit < total)
  }

  /** Page 1 of 20 over 45 rows has more; page 3 does not. */
  lemma PaginationExamples()
    ensures PaginationFor(1, 20, Some(45)).hasMore
    ensures !PaginationFor(3, 20, Some(45)).hasMore
    ensures PaginationFor(1, 20, None) == Pagination(1, 20, 0, false)
  {
  }
}

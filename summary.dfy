/**
 * The paginated summary view of `SummaryPage`: the `page`, `startDate` and
 * `endDate` state, the query key and request parameters it derives, the
 * Previous/Next clamping, their disabled conditions, and when the controls
 * show. `totalPages` always comes from the server's `meta`; the page never
 * computes it.
 */
module Summary {
  import opened Common
  import opened Api
  import opened QueryCache

  /** Records per page; the page always asks for ten. */
  const Limit := 10

  /** Previous: `Math.max(1, page - 1)`. */
  function PreviousPage(page: int): (r: int)
    ensures r >= 1
    ensures page > 1 ==> r == page - 1
    ensures page <= 1 ==> r == 1
  {
    if page - 1 > 1 then page - 1 else 1
  }

  /** Next: `Math.min(totalPages, page + 1)`. */
  function NextPage(page: int, totalPages: int): (r: int)
    ensures r <= totalPages
    ensures page < totalPages ==> r == page + 1
    ensures page >= totalPages ==> r == totalPages
  {
    if page + 1 < totalPages then page + 1 else totalPages
  }

  /** From a page within `1..totalPages`, Previous and Next stay within it and move by at most one. */
  lemma PagingWithinRange(page: int, totalPages: int)
    requires 1 <= page <= totalPages
    ensures 1 <= PreviousPage(page) <= page <= NextPage(page, totalPages) <= totalPages
    ensures NextPage(page, totalPages) <= page + 1 && page - 1 <= PreviousPage(page)
  {
  }

  /**
   * A page left beyond the last one (the dates were edited without pressing
   * Filter, and the new range has fewer pages) is not disabled for Next, and
   * Next then moves back to the last page.
   */
  lemma NextFromBeyondLastMovesBack(page: int, totalPages: int)
    requires page > totalPages
    ensures page != totalPages
    ensures NextPage(page, totalPages) == totalPages < page
  {
  }

  /** The controls show only with a `meta` that has more than one page, so Next from the first page moves on. */
  function ShowPagination(meta: Option<Meta>): (show: bool)
    ensures show <==> meta.Some? && meta.value.totalPages > 1
    ensures show ==> NextPage(1, meta.value.totalPages) == 2
  {
    meta.Some? && meta.value.totalPages > 1
  }

  /** `summaryData?.data || []`: a missing reply lists nothing. */
  function Attendances(data: Option<seq<AttendanceRecord>>): (rows: seq<AttendanceRecord>)
    ensures data.None? ==> rows == []
    ensures data.Some? ==> rows == data.value
  {
    if data.Some? then data.value else []
  }

  /** Different page or date state gives a different query key, so a changed date alone is a new query. */
  lemma SummaryKeyInjective(p1: int, s1: string, e1: string, p2: int, s2: string, e2: string)
    ensures SummaryKey(p1, s1, e1) == SummaryKey(p2, s2, e2) <==> p1 == p2 && s1 == s2 && e1 == e2
  {
    var k1, k2 := SummaryKey(p1, s1, e1), SummaryKey(p2, s2, e2);
    if k1 == k2 {
      assert k1[1] == Number(p1) && k2[1] == Number(p2);
      assert k1[2] == Text(s1) && k2[2] == Text(s2);
      assert k1[3] == Text(e1) && k2[3] == Text(e2);
    }
  }

  class SummaryPage {
    var page: int
    var startDate: string
    var endDate: string

    /** The page number never drops below one. */
    ghost predicate Valid()
      reads this
    {
      page >= 1
    }

    /** The initial state; the two dates (start of month, today) come from the clock. */
    constructor (startOfMonth: string, today: string)
      ensures Valid() && page == 1 && startDate == startOfMonth && endDate == today
    {
      page := 1;
      startDate := startOfMonth;
      endDate := today;
    }

    /** `['attendance-summary', page, startDate, endDate]`. */
    function Key(): (k: QueryKey)
      reads this
      ensures SummaryKeyPrefix <= k
    {
      SummaryKey(page, startDate, endDate)
    }

    /** The parameters the query function passes to `getSummary`. */
    function Params(): (p: SummaryParams)
      reads this
      ensures p.page == page && p.limit == 10 && p.startDate == startDate && p.endDate == endDate
    {
      SummaryParams(page, Limit, startDate, endDate)
    }

    /** `page === 1`: exactly when Previous would leave the page where it is. */
    function PreviousDisabled(): (disabled: bool)
      reads this
      ensures disabled <==> PreviousPage(page) == page
    {
      page == 1
    }

    /** `page === total_pages`: exactly when Next would leave the page where it is. */
    function NextDisabled(totalPages: int): (disabled: bool)
      reads this
      ensures disabled <==> NextPage(page, totalPages) == page
    {
      page == totalPages
    }

    /** Editing the start date: the page is kept. */
    method SetStartDate(d: string)
      modifies this
      ensures startDate == d && endDate == old(endDate) && page == old(page)
    {
      startDate := d;
    }

    /** Editing the end date: the page is kept. */
    method SetEndDate(d: string)
      modifies this
      ensures endDate == d && startDate == old(startDate) && page == old(page)
    {
      endDate := d;
    }

    /** `handleFilter`: back to the first page, dates as they are. */
    method Filter()
      modifies this
      ensures Valid() && page == 1
      ensures startDate == old(startDate) && endDate == old(endDate)
    {
      page := 1;
    }

    method Previous()
      requires Valid()
      modifies this
      ensures Valid() && page == PreviousPage(old(page))
      ensures startDate == old(startDate) && endDate == old(endDate)
    {
      page := PreviousPage(page);
    }

    /** Next exists only while the controls show, that is with more than one page. */
    method Next(meta: Meta)
      requires Valid() && ShowPagination(Some(meta))
      modifies this
      ensures Valid() && page == NextPage(old(page), meta.totalPages) && page <= meta.totalPages
      ensures startDate == old(startDate) && endDate == old(endDate)
    {
      page := NextPage(page, meta.totalPages);
    }
  }
}

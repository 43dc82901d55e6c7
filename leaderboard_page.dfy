/**
 * The leaderboard page: one page of 50 users at a time, the ranks shown
 * beside them, the "Load More" button and the "Showing a-b of n" line.
 */
module LeaderboardView {
  import opened Domain
  import LeaderboardQuery

  const PageSize := 50

  /** A listed user with the rank shown beside it. */
  datatype Row = Row(position: int, user: LeaderboardUser)

  /** "Showing first-last of total users". */
  datatype Range = Range(first: int, last: int, total: int)

  /**
   * The list layout. Without data (a later page still loading) only the
   * header is drawn; with data, its users are non-empty here and the rows,
   * the optional button and the range line follow.
   */
  datatype Body = Body(rank: Option<CurrentUser>, rows: seq<Row>, loadMore: Option<LoadMoreButton>, range: Option<Range>)

  /** The rank of the user at `index` on page `page`. */
  function Position(page: int, index: int): int
  {
    (page - 1) * PageSize + index + 1
  }

  function PageRows(page: int, users: seq<LeaderboardUser>): (rows: seq<Row>)
    ensures |rows| == |users|
    ensures forall i :: 0 <= i < |users| ==> rows[i] == Row(Position(page, i), users[i])
  {
    seq(|users|, i requires 0 <= i < |users| => Row(Position(page, i), users[i]))
  }

  function PageRange(page: int, total: int): (r: Range)
    ensures r.first == (page - 1) * PageSize + 1
    ensures r.last == Min(page * PageSize, total) && r.last <= total && r.last <= page * PageSize
    ensures r.total == total
  {
    Range((page - 1) * PageSize + 1, Min(page * PageSize, total), total)
  }

  /** The tests in the page's order: first-page loader, error, empty list, list. */
  function Screen(page: int, isLoading: bool, error: bool, data: Option<LeaderboardResponse>): (s: ListScreen<Body>)
    ensures s == FullLoader <==> isLoading && page == 1
    ensures s == ErrorState <==> !(isLoading && page == 1) && error
    ensures s == EmptyState <==> !(isLoading && page == 1) && !error && data.Some? && |data.value.users| == 0
    ensures s.ListState? && data.None? ==> s.content == Body(None, [], None, None)
    ensures s.ListState? && data.Some? ==>
      var d := data.value;
      |d.users| > 0 && s.content.rank == d.currentUser && s.content.rows == PageRows(page, d.users) &&
      s.content.range == Some(PageRange(page, d.pagination.total)) &&
      (s.content.loadMore.Some? <==> d.pagination.hasNextPage) &&
      (s.content.loadMore.Some? ==> s.content.loadMore.value.disabled == isLoading &&
                                    s.content.loadMore.value.caption == (if isLoading then "Loading..." else "Load More"))
  {
    if isLoading && page == 1 then FullLoader
    else if error then ErrorState
    else if data.Some? && |data.value.users| == 0 then EmptyState
    else if data.None? then ListState(Body(None, [], None, None))
    else
      var d := data.value;
      ListState(Body(
        d.currentUser,
        PageRows(page, d.users),
        if d.pagination.hasNextPage
        then Some(LoadMoreButton(if isLoading then "Loading..." else "Load More", isLoading))
        else None,
        Some(PageRange(page, d.pagination.total))))
  }

  /** Ranks on a page run consecutively from the range's first value. */
  lemma RowsConsecutive(page: int, users: seq<LeaderboardUser>, total: int)
    requires |users| > 0
    ensures PageRows(page, users)[0].position == PageRange(page, total).first
    ensures forall i :: 0 <= i < |users| - 1 ==>
      PageRows(page, users)[i + 1].position == PageRows(page, users)[i].position + 1
  {
  }

  /**
   * With at most 50 users per page, two different pages never show the same
   * rank, and page p + 1 starts right after the last rank page p can show.
   */
  lemma PagesDisjoint(p: int, q: int, i: int, j: int)
    requires p != q && 0 <= i < PageSize && 0 <= j < PageSize
    ensures Position(p, i) != Position(q, j)
    ensures Position(p + 1, 0) == Position(p, PageSize - 1) + 1
  {
    if p < q {
      assert (q - 1) * PageSize >= p * PageSize;
    } else {
      assert (p - 1) * PageSize >= q * PageSize;
    }
  }

  /**
   * When the backend's total counts every listed user, the last rank on the
   * page does not pass the range's upper bound; a full last page ends on it.
   */
  lemma RangeCoversRows(page: int, users: seq<LeaderboardUser>, total: int)
    requires 0 < |users| <= PageSize
    requires Position(page, |users| - 1) <= total
    ensures PageRange(page, total).first <= PageRows(page, users)[|users| - 1].position <= PageRange(page, total).last
    ensures |users| == PageSize ==> PageRows(page, users)[|users| - 1].position == PageRange(page, total).last
  {
  }

  /** The page that asks for the leaderboard; `currentPage` starts at 1. */
  class LeaderboardPage {
    var currentPage: int

    constructor()
      ensures currentPage == 1
    {
      currentPage := 1;
    }

    /** The query the page runs: the current page, 50 users, the default timeframe. */
    function Query(): (c: LeaderboardQuery.QueryConfig)
      reads this
      ensures c.request == LeaderboardQuery.LeaderboardRequest(currentPage, PageSize)
    {
      LeaderboardQuery.UseUserLeaderboard(Some(currentPage), Some(PageSize), None)
    }

    /** `handleLoadMore`: move to the next page only when the loaded data says there is one. */
    method HandleLoadMore(data: Option<LeaderboardResponse>)
      modifies this
      ensures currentPage == old(currentPage) + (if data.Some? && data.value.pagination.hasNextPage then 1 else 0)
    {
      if data.Some? && data.value.pagination.hasNextPage {
        currentPage := currentPage + 1;
      }
    }
  }
}

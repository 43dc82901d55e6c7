/**
 * The profile's "my podiums" list: pages of 15 vote days, advanced by
 * scrolling near the bottom of the list, with the loader, error, empty and
 * list views.
 */
module MyPodiumView {
  import opened Domain

  const PageLimit := 15
  /** How close to the bottom, in pixels, a scroll must come to ask for the next page. */
  const ScrollSlack := 50

  /** The three brands voted on one day. */
  datatype DayPodium = DayPodium(brand1: Brand, brand2: Brand, brand3: Brand)

  /**
   * The vote history response: the total number of days, and the days of
   * the requested page (at most 15), keyed by date.
   */
  datatype VoteHistory = VoteHistory(count: int, data: map<string, DayPodium>)

  /** The request `useMyVoteHistory(pageId, 15)` makes. */
  datatype HistoryRequest = HistoryRequest(pageId: int, limit: int)

  /** The scroll container's measurements at the time of a scroll event. */
  datatype ScrollMetrics = ScrollMetrics(scrollTop: int, scrollHeight: int, clientHeight: int)

  /** The list layout: the loaded days (none before data arrives) and the inline "Loading more" line. */
  datatype Body = NoHistory | HistoryList(days: map<string, DayPodium>, loadingMore: bool)

  /** `handleScrollList`'s guard: near the bottom, not fetching, and fewer day keys loaded than `count`. */
  predicate ScrollAdvances(m: ScrollMetrics, isFetching: bool, history: Option<VoteHistory>)
  {
    m.scrollTop + m.clientHeight + ScrollSlack >= m.scrollHeight && !isFetching &&
    history.Some? && |history.value.data| < history.value.count
  }

  /** The tests in the component's order: first-page loader, error, no day keys, list. */
  function Screen(pageId: int, isLoading: bool, isFetching: bool, error: bool, history: Option<VoteHistory>): (s: ListScreen<Body>)
    ensures s == FullLoader <==> isLoading && pageId == 1
    ensures s == ErrorState <==> !(isLoading && pageId == 1) && error
    ensures s == EmptyState <==> !(isLoading && pageId == 1) && !error && history.Some? && |history.value.data| == 0
    ensures s.ListState? ==> (s.content.NoHistory? <==> history.None?)
    ensures s.ListState? && history.Some? ==>
      |history.value.data| > 0 && s.content.days == history.value.data &&
      (s.content.loadingMore <==> isFetching && pageId > 1)
  {
    if isLoading && pageId == 1 then FullLoader
    else if error then ErrorState
    else if history.Some? && |history.value.data| == 0 then EmptyState
    else if history.None? then ListState(NoHistory)
    else ListState(HistoryList(history.value.data, isFetching && pageId > 1))
  }

  /**
   * Each response holds one page of at most 15 days, so once `count`
   * exceeds 15 the loaded days never reach it: every scroll near the bottom
   * while idle asks for the next page, and a page past the last one comes
   * back with no days, which replaces the list by the "No podiums yet!"
   * view.
   */
  lemma PagedHistoryNeverCompletes(m: ScrollMetrics, h: VoteHistory, pageId: int)
    requires h.count > PageLimit && |h.data| <= PageLimit
    requires m.scrollTop + m.clientHeight + ScrollSlack >= m.scrollHeight
    requires pageId > 1
    ensures ScrollAdvances(m, false, Some(h))
    ensures Screen(pageId, false, false, false, Some(VoteHistory(h.count, map[]))) == EmptyState
  {
  }

  /** A history whose loaded days already reach `count` never asks for another page, however the list is scrolled. */
  lemma CompleteHistoryStops(m: ScrollMetrics, isFetching: bool, h: VoteHistory)
    requires |h.data| >= h.count
    ensures !ScrollAdvances(m, isFetching, Some(h))
  {
  }

  class MyPodium {
    var pageId: int

    constructor()
      ensures pageId == 1
    {
      pageId := 1;
    }

    /** The request for the current page: always 15 days. */
    function Request(): (r: HistoryRequest)
      reads this
      ensures r.pageId == pageId && r.limit == 15
    {
      HistoryRequest(pageId, PageLimit)
    }

    /** `handleScrollList`: one page further when the guard holds; never backwards. */
    method HandleScrollList(m: ScrollMetrics, isFetching: bool, history: Option<VoteHistory>)
      modifies this
      ensures pageId == old(pageId) + (if ScrollAdvances(m, isFetching, history) then 1 else 0)
      ensures pageId >= old(pageId)
    {
      var reach := m.scrollTop + m.clientHeight + ScrollSlack;
      if reach >= m.scrollHeight && !isFetching && history.Some? {
        var totalItems := |history.value.data|;
        if totalItems < history.value.count {
          pageId := pageId + 1;
        }
      }
    }
  }
}

/**
 * The public feed of recent podiums: pages of 20, a "Load More Podiums"
 * button, the relative time shown on each podium and the placement of its
 * brand cards.
 */
module PodiumFeed {
  import opened Domain
  import opened Decimal

  const FeedLimit := 20
  const HourMs := 1000 * 60 * 60

  datatype PodiumUser = PodiumUser(username: string, photoUrl: string)

  /** A recent podium; `createdAtMs` is its creation time as a millisecond clock reading. */
  datatype RecentPodium = RecentPodium(id: int, user: PodiumUser, createdAtMs: int, pointsAwarded: int, brands: seq<Brand>)

  datatype RecentPodiumsResponse = RecentPodiumsResponse(podiums: seq<RecentPodium>, pagination: Pagination)

  datatype FeedRequest = FeedRequest(page: int, limit: int)

  /** The bucket `getTimeAgo` falls in; past a week the browser's locale date is shown. */
  datatype TimeAgo = JustNow | HoursAgo(hours: nat) | DaysAgo(days: nat) | LocaleDate

  /**
   * `getTimeAgo`: whole hours since creation, rounded down (so a creation
   * time in the future is "Just now"), then whole days below a week.
   */
  function GetTimeAgo(nowMs: int, createdMs: int): (t: TimeAgo)
    ensures t == JustNow <==> nowMs - createdMs < HourMs
    ensures t.HoursAgo? <==> HourMs <= nowMs - createdMs < 24 * HourMs
    ensures t.DaysAgo? <==> 24 * HourMs <= nowMs - createdMs < 7 * 24 * HourMs
    ensures t == LocaleDate <==> nowMs - createdMs >= 7 * 24 * HourMs
  {
    var diffInHours := (nowMs - createdMs) / HourMs;
    if diffInHours < 1 then JustNow
    else if diffInHours < 24 then HoursAgo(diffInHours)
    else
      var diffInDays := diffInHours / 24;
      if diffInDays < 7 then DaysAgo(diffInDays) else LocaleDate
  }

  /** The hour count shown is in 1..23 and is the number of whole hours elapsed. */
  lemma HoursBucket(nowMs: int, createdMs: int)
    requires GetTimeAgo(nowMs, createdMs).HoursAgo?
    ensures var h := GetTimeAgo(nowMs, createdMs).hours;
      1 <= h <= 23 && h * HourMs <= nowMs - createdMs < (h + 1) * HourMs
  {
    var diff := nowMs - createdMs;
    var h := diff / HourMs;
    assert diff == h * HourMs + diff % HourMs;
  }

  /** The day count shown is in 1..6 and is the number of whole days elapsed. */
  lemma DaysBucket(nowMs: int, createdMs: int)
    requires GetTimeAgo(nowMs, createdMs).DaysAgo?
    ensures var d := GetTimeAgo(nowMs, createdMs).days;
      1 <= d <= 6 && d * 24 * HourMs <= nowMs - createdMs < (d + 1) * 24 * HourMs
  {
    var diff := nowMs - createdMs;
    var h := diff / HourMs;
    var d := h / 24;
    assert diff == h * HourMs + diff % HourMs;
    assert h == d * 24 + h % 24;
  }

  /** The text shown; `localeDate` is `toLocaleDateString()` of the creation time, which is not modelled. */
  function TimeAgoText(t: TimeAgo, localeDate: string): (text: string)
    ensures t == JustNow ==> text == "Just now"
    ensures t.HoursAgo? ==>
      text == NatToString(t.hours) + "h ago" && ParseDecimal(NatToString(t.hours)) == t.hours
    ensures t.DaysAgo? ==>
      text == NatToString(t.days) + "d ago" && ParseDecimal(NatToString(t.days)) == t.days
    ensures t == LocaleDate ==> text == localeDate
  {
    match t
    case JustNow => "Just now"
    case HoursAgo(h) =>
      ParseNatToString(h);
      NatToString(h) + "h ago"
    case DaysAgo(d) =>
      ParseNatToString(d);
      NatToString(d) + "d ago"
    case LocaleDate => localeDate
  }

  /** Card placement by index in the podium: 0 left, 1 center, anything else right. */
  function FeedOrientation(index: nat): (o: Orientation)
    ensures o == Left <==> index == 0
    ensures o == Center <==> index == 1
    ensures o == Right <==> index >= 2
  {
    if index == 0 then Left else if index == 1 then Center else Right
  }

  /** The list layout: the podiums, the optional button and "Showing shown of total podiums". */
  datatype Body = Body(podiums: seq<RecentPodium>, loadMore: Option<LoadMoreButton>, shown: int, total: int)

  /** The tests in the component's order: first-page loader, error, no podiums (or no data), list. */
  function Screen(page: int, isLoading: bool, error: bool, data: Option<RecentPodiumsResponse>): (s: ListScreen<Body>)
    ensures s == FullLoader <==> isLoading && page == 1
    ensures s == ErrorState <==> !(isLoading && page == 1) && error
    ensures s == EmptyState <==> !(isLoading && page == 1) && !error && (data.None? || |data.value.podiums| == 0)
    ensures s.ListState? ==>
      data.Some? && |data.value.podiums| > 0 && s.content.podiums == data.value.podiums &&
      s.content.shown == |data.value.podiums| && s.content.total == data.value.pagination.total &&
      (s.content.loadMore.Some? <==> data.value.pagination.hasNextPage) &&
      (s.content.loadMore.Some? ==> s.content.loadMore.value.disabled == isLoading &&
                                    s.content.loadMore.value.caption == (if isLoading then "Loading..." else "Load More Podiums"))
  {
    if isLoading && page == 1 then FullLoader
    else if error then ErrorState
    else if data.None? || |data.value.podiums| == 0 then EmptyState
    else
      var d := data.value;
      ListState(Body(
        d.podiums,
        if d.pagination.hasNextPage
        then Some(LoadMoreButton(if isLoading then "Loading..." else "Load More Podiums", isLoading))
        else None,
        |d.podiums|,
        d.pagination.total))
  }

  class PublicPodiumsFeed {
    var currentPage: int

    constructor()
      ensures currentPage == 1
    {
      currentPage := 1;
    }

    /** The request for the current page: always 20 podiums. */
    function Request(): (r: FeedRequest)
      reads this
      ensures r.page == currentPage && r.limit == 20
    {
      FeedRequest(currentPage, FeedLimit)
    }

    /** `handleLoadMore`: move to the next page only when the loaded data says there is one. */
    method HandleLoadMore(data: Option<RecentPodiumsResponse>)
      modifies this
      ensures currentPage == old(currentPage) + (if data.Some? && data.value.pagination.hasNextPage then 1 else 0)
    {
      if data.Some? && data.value.pagination.hasNextPage {
        currentPage := currentPage + 1;
      }
    }
  }
}

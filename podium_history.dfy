/**
 * The rank and user podium tabs. Both request the top 20 brands in the
 * order the period asks for, lay out four history entries over a sliding
 * window of three brands, and draw at most three cards per entry: numbered
 * podium cards in the rank tab, left/center/right brand cards in the user
 * tab.
 */
module PodiumHistory {
  import opened Domain
  import PodiumFeed

  datatype Period = Week | Month | All

  /** `useBrandList(orderType, search, page, limit)`. */
  datatype BrandListRequest = BrandListRequest(orderType: string, search: string, page: int, limit: int)

  /** `orderType`: "top" for the week, "all" for the month and for all time. */
  function OrderType(period: Period): (o: string)
    ensures o == "top" <==> period == Week
    ensures o == "all" <==> period != Week
  {
    if period == Week then "top" else if period == Month then "all" else "all"
  }

  /** The brand list both tabs ask for: no search, first page, 20 brands. */
  function BrandListQuery(period: Period): (r: BrandListRequest)
    ensures r.orderType == OrderType(period) && r.search == "" && r.page == 1 && r.limit == 20
  {
    BrandListRequest(OrderType(period), "", 1, 20)
  }

  /**
   * JavaScript `s.slice(start, end)` for non-negative bounds: both are
   * clamped to the length, and an end before the start gives [].
   */
  function JsSlice<T>(s: seq<T>, start: nat, end: nat): (r: seq<T>)
    ensures |r| == Max(0, Min(end, |s|) - Min(start, |s|))
    ensures forall i :: 0 <= i < |r| ==> r[i] == s[start + i]
  {
    var from := Min(start, |s|);
    var to := Min(end, |s|);
    if to <= from then [] else s[from..to]
  }

  /** One history entry: its heading, its brands and the time label text. */
  datatype HistoryEntry = HistoryEntry(date: string, brands: seq<Brand>, timeAgo: string)

  /** `data?.brands?.slice(i, i + 3) || []`: an absent list gives no brands; a present one, even empty, is sliced. */
  function Window(brands: Option<seq<Brand>>, i: nat): seq<Brand>
  {
    if brands.Some? then JsSlice(brands.value, i, i + 3) else []
  }

  /** `mockHistory`: four entries, entry i over the window of brands starting at i. */
  function MockHistory(brands: Option<seq<Brand>>): (h: seq<HistoryEntry>)
    ensures |h| == 4
    ensures forall i :: 0 <= i < 4 ==> h[i].brands == Window(brands, i)
    ensures h[0].date == "Today" && h[0].timeAgo == ""
    ensures h[1].date == "1 day ago" && h[1].timeAgo == "1 day"
    ensures h[2].date == "2 days ago" && h[2].timeAgo == "2 days ago"
    ensures h[3].date == "3 days ago" && h[3].timeAgo == "3 days ago"
  {
    [ HistoryEntry("Today", Window(brands, 0), ""),
      HistoryEntry("1 day ago", Window(brands, 1), "1 day"),
      HistoryEntry("2 days ago", Window(brands, 2), "2 days ago"),
      HistoryEntry("3 days ago", Window(brands, 3), "3 days ago") ]
  }

  /**
   * Entry i holds `brands[i .. min(i + 3, n))`: at most three brands, the
   * whole window when the list is long enough, and nothing once i reaches
   * the end or when no list has arrived.
   */
  lemma WindowContents(brands: Option<seq<Brand>>, i: nat)
    requires i < 4
    ensures var w := MockHistory(brands)[i].brands;
      |w| <= 3 &&
      (brands.None? ==> w == []) &&
      (brands.Some? && i >= |brands.value| ==> w == []) &&
      (brands.Some? && i < |brands.value| ==> w == brands.value[i..Min(i + 3, |brands.value|)])
  {
    var w := MockHistory(brands)[i].brands;
    if brands.Some? && i < |brands.value| {
      var s := brands.value;
      assert w == s[i..Min(i + 3, |s|)];
    }
  }

  /** Consecutive entries overlap in two brands when the list is long enough: the window slides by one. */
  lemma WindowSlides(brands: seq<Brand>, i: nat)
    requires i < 3 && i + 4 <= |brands|
    ensures var h := MockHistory(Some(brands));
      |h[i].brands| == 3 && |h[i + 1].brands| == 3 && h[i + 1].brands[..2] == h[i].brands[1..]
  {
    var h := MockHistory(Some(brands));
    assert h[i].brands == brands[i..i + 3];
    assert h[i + 1].brands == brands[i + 1..i + 4];
  }

  /** Only entries with a non-empty `timeAgo` draw a time label. */
  predicate ShowsTimeLabel(e: HistoryEntry) { e.timeAgo != "" }

  /** The "Today" entry is the one entry without a time label. */
  lemma OnlyTodayUnlabelled(brands: Option<seq<Brand>>, i: nat)
    requires i < 4
    ensures ShowsTimeLabel(MockHistory(brands)[i]) <==> i != 0
  {
  }

  /** The score shown: the weekly score for the week, the all-time score otherwise. */
  function ScoreFor(period: Period, b: Brand): int
  {
    if period == Week then b.scoreWeek else b.score
  }

  /** The value passed to the score-variation helper, chosen by the same rule. */
  function VariationSource(period: Period, b: Brand): int
  {
    if period == Week then b.stateScoreWeek else b.stateScore
  }

  /** A podium card of the rank tab. */
  datatype RankCard = RankCard(position: int, brandId: int, name: string, photoUrl: string, score: int, variationSource: int)

  /** The cards of one rank-tab entry: its first three brands, numbered from 1. */
  function RankCards(period: Period, e: HistoryEntry): (cards: seq<RankCard>)
    ensures |cards| == Min(3, |e.brands|)
    ensures forall i :: 0 <= i < |cards| ==>
      1 <= cards[i].position <= 3 && cards[i].position == i + 1 &&
      cards[i].brandId == e.brands[i].id && cards[i].name == e.brands[i].name &&
      cards[i].photoUrl == e.brands[i].imageUrl &&
      (period == Week ==> cards[i].score == e.brands[i].scoreWeek && cards[i].variationSource == e.brands[i].stateScoreWeek) &&
      (period != Week ==> cards[i].score == e.brands[i].score && cards[i].variationSource == e.brands[i].stateScore)
  {
    var shown := JsSlice(e.brands, 0, 3);
    seq(|shown|, i requires 0 <= i < |shown| =>
      RankCard(i + 1, shown[i].id, shown[i].name, shown[i].imageUrl, ScoreFor(period, shown[i]), VariationSource(period, shown[i])))
  }

  /** The user tab's placement: `brandIndex % 3`, 0 left, 1 center, 2 right. */
  function UserOrientation(brandIndex: nat): (o: Orientation)
    ensures o == Left <==> brandIndex % 3 == 0
    ensures o == Center <==> brandIndex % 3 == 1
    ensures o == Right <==> brandIndex % 3 == 2
  {
    if brandIndex % 3 == 0 then Left else if brandIndex % 3 == 1 then Center else Right
  }

  /** A brand card of the user tab. */
  datatype UserCard = UserCard(orientation: Orientation, brandId: int, name: string, photoUrl: string, score: int, variationSource: int)

  /** The cards of one user-tab entry: its first three brands, left to right. */
  function UserCards(period: Period, e: HistoryEntry): (cards: seq<UserCard>)
    ensures |cards| == Min(3, |e.brands|)
    ensures forall i :: 0 <= i < |cards| ==>
      cards[i].orientation == (if i == 0 then Left else if i == 1 then Center else Right) &&
      cards[i].brandId == e.brands[i].id && cards[i].name == e.brands[i].name &&
      cards[i].photoUrl == e.brands[i].imageUrl &&
      (period == Week ==> cards[i].score == e.brands[i].scoreWeek && cards[i].variationSource == e.brands[i].stateScoreWeek) &&
      (period != Week ==> cards[i].score == e.brands[i].score && cards[i].variationSource == e.brands[i].stateScore)
  {
    var shown := JsSlice(e.brands, 0, 3);
    seq(|shown|, i requires 0 <= i < |shown| =>
      UserCard(UserOrientation(i), shown[i].id, shown[i].name, shown[i].imageUrl, ScoreFor(period, shown[i]), VariationSource(period, shown[i])))
  }

  /**
   * For the three cards an entry can show, the user tab's `brandIndex % 3`
   * placement is the feed's index rule; the two rules would first part at
   * index 3 (left here, right in the feed), which `slice(0, 3)` never reaches.
   */
  lemma OrientationAgreesWithFeed(period: Period, e: HistoryEntry, i: nat)
    requires i < |UserCards(period, e)|
    ensures i < 3 && UserCards(period, e)[i].orientation == PodiumFeed.FeedOrientation(i)
    ensures UserOrientation(3) != PodiumFeed.FeedOrientation(3)
  {
  }

  /**
   * The podium history both tabs keep in state: empty at first, replaced by
   * `mockHistory` each time the brand list's data changes.
   */
  class PodiumHistoryView {
    const period: Period
    var podiumHistory: seq<HistoryEntry>

    constructor(period: Period)
      ensures this.period == period && podiumHistory == []
    {
      this.period := period;
      podiumHistory := [];
    }

    /** The brand list request for this tab's period. */
    function Request(): (r: BrandListRequest)
      reads this
      ensures r.orderType == (if period == Week then "top" else "all") && r.search == "" && r.page == 1 && r.limit == 20
    {
      BrandListQuery(period)
    }

    /** The effect on `data`: store the four entries built from the brand list. */
    method SyncHistory(brands: Option<seq<Brand>>)
      modifies this
      ensures podiumHistory == MockHistory(brands)
      ensures |podiumHistory| == 4 && forall i :: 0 <= i < 4 ==> |podiumHistory[i].brands| <= 3
    {
      podiumHistory := MockHistory(brands);
      forall i | 0 <= i < 4
        ensures |podiumHistory[i].brands| <= 3
      {
        WindowContents(brands, i);
      }
    }
  }
}

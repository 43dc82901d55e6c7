/**
 * The `useUserLeaderboard` hook: the cache key, the request, the staleness
 * window and the retry count of a leaderboard query.
 */
module LeaderboardQuery {
  import opened Domain
  import opened Cache
  import VoteMutation

  const DefaultPage := 1
  const DefaultLimit := 50
  const DefaultTimeframe := "all"
  /** `2 * 60 * 1000`: two minutes in milliseconds. */
  const LeaderboardStaleTime: nat := 2 * 60 * 1000
  const LeaderboardRetry: nat := 1

  const LeaderboardResource := Str("userLeaderboard")

  /** The request `getUserLeaderboard(page, limit)` sends: it has no timeframe parameter. */
  datatype LeaderboardRequest = LeaderboardRequest(page: int, limit: int)

  datatype QueryConfig = QueryConfig(key: QueryKey, request: LeaderboardRequest, staleTime: nat, retry: nat)

  function LeaderboardKey(page: int, limit: int, timeframe: string): QueryKey
  {
    [LeaderboardResource, Num(page), Num(limit), Str(timeframe)]
  }

  function OrDefault<T>(v: Option<T>, d: T): T { if v.Some? then v.value else d }

  /** `useUserLeaderboard(page?, limit?, timeframe?)`; an absent argument takes its default. */
  function UseUserLeaderboard(page: Option<int>, limit: Option<int>, timeframe: Option<string>): (c: QueryConfig)
    ensures c.staleTime == 120000 && c.retry == 1
    ensures |c.key| == 4 && c.key[0] == Str("userLeaderboard")
    ensures c.key[1] == Num(c.request.page) && c.key[2] == Num(c.request.limit)
    ensures c.request.page == (if page.Some? then page.value else 1)
    ensures c.request.limit == (if limit.Some? then limit.value else 50)
    ensures c.key[3] == Str(if timeframe.Some? then timeframe.value else "all")
  {
    var p := OrDefault(page, DefaultPage);
    var l := OrDefault(limit, DefaultLimit);
    var t := OrDefault(timeframe, DefaultTimeframe);
    QueryConfig(LeaderboardKey(p, l, t), LeaderboardRequest(p, l), LeaderboardStaleTime, LeaderboardRetry)
  }

  /** Two leaderboard reads share a cache entry exactly when page, limit and timeframe all agree. */
  lemma KeySharedIffSameParams(p1: int, l1: int, t1: string, p2: int, l2: int, t2: string)
    ensures UseUserLeaderboard(Some(p1), Some(l1), Some(t1)).key == UseUserLeaderboard(Some(p2), Some(l2), Some(t2)).key
        <==> p1 == p2 && l1 == l2 && t1 == t2
  {
    var k1 := LeaderboardKey(p1, l1, t1);
    var k2 := LeaderboardKey(p2, l2, t2);
    if k1 == k2 {
      assert k1[1] == k2[1] && k1[2] == k2[2] && k1[3] == k2[3];
    }
  }

  /** The timeframe splits the cache but never changes the request that is sent. */
  lemma TimeframeOnlySplitsKey(page: int, limit: int, t1: string, t2: string)
    requires t1 != t2
    ensures UseUserLeaderboard(Some(page), Some(limit), Some(t1)).key != UseUserLeaderboard(Some(page), Some(limit), Some(t2)).key
    ensures UseUserLeaderboard(Some(page), Some(limit), Some(t1)).request == UseUserLeaderboard(Some(page), Some(limit), Some(t2)).request
  {
    KeySharedIffSameParams(page, limit, t1, page, limit, t2);
  }

  /**
   * An entry that has not been invalidated is served without a fetch exactly
   * when it was written less than 120000 ms before the read.
   */
  lemma ServedWithinWindow(page: Option<int>, limit: Option<int>, timeframe: Option<string>, e: Entry, now: int)
    requires !e.invalidated
    ensures IsFresh(e, UseUserLeaderboard(page, limit, timeframe).staleTime, now) <==> now < e.updatedAt + 120000
  {
  }

  /**
   * A successful vote leaves every leaderboard entry exactly as it was, so a
   * leaderboard read that was fresh before the vote is still served from the
   * cache afterwards.
   */
  lemma VoteKeepsLeaderboard(m: Entries, page: int, limit: int, timeframe: string, now: int)
    requires LeaderboardKey(page, limit, timeframe) in m
    ensures var k := LeaderboardKey(page, limit, timeframe);
      k in VoteMutation.VoteInvalidations(m) && VoteMutation.VoteInvalidations(m)[k] == m[k]
    ensures var k := LeaderboardKey(page, limit, timeframe);
      IsFresh(m[k], LeaderboardStaleTime, now) ==> IsFresh(VoteMutation.VoteInvalidations(m)[k], LeaderboardStaleTime, now)
  {
    var k := LeaderboardKey(page, limit, timeframe);
    DistinctResource(k, AuthKey);
    DistinctResource(k, VoteMutation.BrandsPrefix);
    DistinctResource(k, VoteMutation.UserVotesPrefix);
    VoteMutation.VoteInvalidationsExact(m, k);
  }
}

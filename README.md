# BRND client core in Dafny

This project models the decision logic of the BRND Farcaster miniapp client
(a React app in which users vote a daily podium of three brands). It covers
four areas:

- **Vote flow.** Validating and submitting a podium, the mutation hook's own
  check, and the cache invalidations after a vote. Then composing the share
  cast, the share-frame request, the success path, and routing after login.
- **Query cache and session.** A keyed store with prefix invalidation, a
  staleness window and retries. The leaderboard query's key, defaults and
  window. The app provider's session, changed by miniapp start-up, sign-in
  and sign-out.
- **Paged list controllers.** The leaderboard, the "my podiums" list and the
  public podium feed. Each has a 1-based page counter, an advance guard and
  a display order: first-page loader, error, empty, list.
- **Display helpers.** The rank and user podium tabs (order type, sliding
  window of brands, score field, card position and placement), the
  relative-time buckets, and the two-digit position label.

The source keeps state in React hooks and in the react-query client. The
model represents that state as follows:

- A component's state is a class field.
- A callback is a method that changes those fields.
- The shared query client is a class holding a `map` from keys to entries.
- Side effects are appended to an event log, so that their order can be
  stated:
  - alerts, haptics and navigation;
  - login requests and the auth refetch;
  - composed casts and share-frame requests;
  - callback invocations.
- Everything that comes from outside is a method parameter: SDK results,
  backend answers, the clock, and scroll measurements.

Pure logic is modelled as functions, and properties that relate several
calls are stated as lemmas.

Modules, one per file:

| file | models |
|---|---|
| `domain.dfy` | shared value types and JavaScript truthiness |
| `decimal.dfy` | decimal `toString` of naturals and its inverse |
| `cache.dfy` | the react-query client |
| `vote_mutation.dfy` | `useVoteBrands` |
| `leaderboard_query.dfy` | `useUserLeaderboard` |
| `podium_view.dfy` | `PodiumView` |
| `share_view.dfy` | `ShareView` |
| `login_page.dfy` | `LoginPage` |
| `session.dfy` | `AppProvider` |
| `leaderboard_page.dfy` | `LeaderboardPage` |
| `my_podium.dfy` | `MyPodium` |
| `podium_feed.dfy` | `PublicPodiumsFeed` |
| `podium_history.dfy` | `RankPodiums` and `UserPodiums` |
| `user_list_item.dfy` | `UserListItem` |

Behaviours the code does not have, or has in a form one might not expect;
the model follows the code:

- No double-submit guard: a second `HandleSubmitVote` while a vote is in
  flight issues a second request.
- A vote invalidates only `auth`, `brands` and `user-votes`. The leaderboard
  cache entries are left as they were, fresh for their full two minutes; see
  `VoteKeepsLeaderboard`. This is a fact about the cache entries: the
  leaderboard page still refetches on mount (see "## Left out").
- Sign-out writes `null` under `auth` only. No other entry is cleared.
- The list pages request one page at a time and show only that page. Pages
  are not accumulated, and there is no guard that discards a response
  arriving after the page has moved on.
- The hash returned by `composeCast` is never checked. `shareFrame` is
  requested whatever the composer returns.
- The share text and `places` put `brands[1]` under 🥇 and `brands[0]` under
  🥈, while the vote request sends `brands[0]` first.
- `useUserLeaderboard` passes a timeframe to `getUserLeaderboard`, but that
  service (src/services/user.ts:85-95) declares only page and limit and
  sends only those. The timeframe therefore splits cache keys without
  changing the request.

## Model

| member | source | states |
|---|---|---|
| `Cache.QueryClient.constructor` | src/shared/providers/AppProvider.tsx:29 | the app's one query client starts with no entries |
| `Cache.QueryClient.SetQueryData` | src/shared/providers/AppProvider.tsx:74 | a direct write replaces only the entry under its key, fresh and not invalidated, and leaves every other key as it was |
| `Cache.QueryClient.InvalidateQueries` | src/shared/hooks/brands/useVoteBrands.ts:35-37 | invalidation marks every entry whose key starts with the prefix and nothing else |
| `Cache.QueryClient.Read` | src/shared/hooks/user/useUserLeaderboard.ts:156-161 | a fresh entry is served with no fetch and no change; otherwise the query function is called at least once and at most `retry + 1` times, stopping at the first success; a success is stored under the key, and a failure of every call leaves the cache as it was |
| `Cache.Retry` | src/shared/hooks/user/useUserLeaderboard.ts:160 | at least one and at most `budget` calls for a positive budget; every call before the last failed; a returned value is the last call's result; no value means all `budget` calls were made and every one failed |
| `Cache.InvalidateIdempotent` | src/shared/hooks/brands/useVoteBrands.ts:35 | invalidating a prefix twice equals invalidating it once |
| `Cache.InvalidateCommutes` | src/shared/hooks/brands/useVoteBrands.ts:35-37 | the order of two prefix invalidations does not matter |
| `Cache.InvalidateEffect` | src/shared/hooks/brands/useVoteBrands.ts:35-37 | keys are kept; an entry changes iff it lies under the prefix and was not already invalidated, and then only its flag changes |
| `Cache.InvalidatedIsStale` | src/shared/hooks/brands/useVoteBrands.ts:34-37 | after invalidation no reader is served from an entry under the prefix, whatever its staleness window |
| `Cache.DistinctResource` | src/shared/hooks/user/useUserLeaderboard.ts:157 | a key whose resource name differs from a one-part prefix is never under that prefix |
| `Decimal.NatToString` | src/shared/components/UserListItem/index.tsx:35 | `toString` of a natural is a non-empty digit string with no leading zero unless the number is 0 |
| `Decimal.ParseNatToString` | src/shared/components/UserListItem/index.tsx:35 | reading the decimal string of n back gives n |
| `Decimal.NatToStringLength` | src/shared/components/UserListItem/index.tsx:35 | the decimal string has as many characters as the number has digits |
| `Decimal.ParseLeadingZero` | src/shared/components/UserListItem/index.tsx:35 | a zero put in front of a numeral does not change its value |
| `VoteMutation.UniqueCountThree` | src/shared/hooks/brands/useVoteBrands.ts:24-25 | for three ids, `new Set(ids).size === 3` holds exactly when no two ids are equal |
| `VoteMutation.MutationFn` | src/shared/hooks/brands/useVoteBrands.ts:15-30 | a non-array or a length other than 3 throws "Must select exactly 3 brands"; three ids with a repeat throw "All brands must be different"; otherwise the same ids, in the same order, go to the backend |
| `VoteMutation.VoteInvalidationsExact` | src/shared/hooks/brands/useVoteBrands.ts:31-38 | after a successful vote every key is still present, exactly the entries under `auth`, `brands` or `user-votes` are invalidated, and all others are unchanged |
| `VoteMutation.AuthInvalidatedAgain` | src/pages/VotePage/partials/PodiumView/index.tsx:120 | the vote page's extra `auth` invalidation after the hook's three gives the same cache state, in a cache that does not refetch on invalidation |
| `VoteMutation.VoteBrandsMutation.Mutate` | src/shared/hooks/brands/useVoteBrands.ts:14-38 | a rejected guard sends no request and leaves the cache as it was; otherwise exactly one request with the given ids is sent, its answer is the outcome, and only a success applies the three invalidations |
| `LeaderboardQuery.UseUserLeaderboard` | src/shared/hooks/user/useUserLeaderboard.ts:151-161 | page 1, limit 50 and timeframe "all" by default; the key is `["userLeaderboard", page, limit, timeframe]`; the request carries page and limit; staleness window 120000 ms; one retry |
| `LeaderboardQuery.KeySharedIffSameParams` | src/shared/hooks/user/useUserLeaderboard.ts:157 | two calls share a cache entry iff page, limit and timeframe are all equal |
| `LeaderboardQuery.TimeframeOnlySplitsKey` | src/shared/hooks/user/useUserLeaderboard.ts:157-158 | different timeframes give different keys but the same request |
| `LeaderboardQuery.ServedWithinWindow` | src/shared/hooks/user/useUserLeaderboard.ts:159 | an entry that was not invalidated is served from the cache iff it was written less than 120000 ms before the read |
| `LeaderboardQuery.VoteKeepsLeaderboard` | src/shared/hooks/brands/useVoteBrands.ts:31-38 | a successful vote leaves every leaderboard entry unchanged, so a leaderboard read that was fresh stays fresh |
| `PodiumStep.BrandIds` | src/pages/VotePage/partials/PodiumView/index.tsx:62 | the ids of the selection, one per brand, in order |
| `PodiumStep.SubmittedIds` | src/pages/VotePage/partials/PodiumView/index.tsx:113-116 | the vote request carries three ids: those of `brands[0]`, `brands[1]` and `brands[2]`, in that order |
| `PodiumStep.ValidateBrands` | src/pages/VotePage/partials/PodiumView/index.tsx:46-92 | true iff there are exactly 3 brands, with distinct ids, and the cached user has not voted today (an absent user does not block); each false result carries exactly one alert, checked in the order count, duplicates, already voted |
| `PodiumStep.VotingFailedAlert` | src/pages/VotePage/partials/PodiumView/index.tsx:134-142 | the "Voting Failed" alert shows the error message, or the default text when it is empty |
| `PodiumStep.AcceptedSelectionPassesHook` | src/pages/VotePage/partials/PodiumView/index.tsx:113-116 | an accepted selection is sent as `[brands[0].id, brands[1].id, brands[2].id]`, and the hook's own check passes it unchanged |
| `PodiumStep.DuplicateReportedBeforeAlreadyVoted` | src/pages/VotePage/partials/PodiumView/index.tsx:61-87 | three brands with any repeated id, chosen by a user who already voted, report "Duplicate Selection" and not "Already Voted" |
| `PodiumStep.PodiumView.HandleSubmitVote` | src/pages/VotePage/partials/PodiumView/index.tsx:100-148 | a rejected selection opens its one alert and sends nothing, with no haptic or cache change; an accepted one sends the ids once; on success the cache gets the hook's invalidations (the extra `auth` one changes nothing in the modelled cache, which has no refetch) and the flow moves to the share step carrying the same brands and the returned id, between two haptics; on error two haptics and the "Voting Failed" alert follow, and there is no navigation |
| `ShareStep.Handle` | src/pages/VotePage/partials/ShareView/index.tsx:48-56 | a brand's handle is its profile when that is truthy, else its channel |
| `ShareStep.Places` | src/pages/VotePage/partials/ShareView/index.tsx:84-97 | three places: 🥇 over `brands[1]`, 🥈 over `brands[0]`, 🥉 over `brands[2]` |
| `ShareStep.ShareText` | src/pages/VotePage/partials/ShareView/index.tsx:59 | the cast text is the header followed by three lines; line i carries the medal and handle of place i with that brand's name, so 🥇 names `brands[1]`, 🥈 `brands[0]` and 🥉 `brands[2]` |
| `ShareStep.Embeds` | src/pages/VotePage/partials/ShareView/index.tsx:60 | a single embed: the podium URL base followed by the vote id |
| `ShareStep.SuccessPath` | src/pages/VotePage/partials/ShareView/index.tsx:67-71 | the current path with "?success" appended; on `/vote` a slash and the seconds are inserted between |
| `ShareStep.SuccessPathSeconds` | src/pages/VotePage/partials/ShareView/index.tsx:69 | the inserted number is the clock reading's whole seconds: s·1000 ≤ now < (s+1)·1000 |
| `ShareStep.SkipNavigation` | src/pages/VotePage/partials/ShareView/index.tsx:40 | skip goes back iff there is no vote id, and home otherwise |
| `ShareStep.ShareView.HandleClickSkip` | src/pages/VotePage/partials/ShareView/index.tsx:39-41 | one navigation, chosen by the vote id |
| `ShareStep.ShareView.HandleClickShare` | src/pages/VotePage/partials/ShareView/index.tsx:47-75 | the cast with the share text and the embed is composed, then the share frame is always requested, then there is a navigation to the success path only when the response is truthy |
| `Login.LoginRequest` | src/pages/LoginPage/index.tsx:59-73 | a request exists iff fid, username, token and photoUrl are all truthy; it carries domain "brnd.lat" and the sign-in fields unchanged |
| `Login.NavigatePath` | src/pages/LoginPage/index.tsx:80-86 | "/welcome" iff created; otherwise "/vote" iff not voted today; otherwise "/" |
| `Login.LoginPage.HandleSignInSuccess` | src/pages/LoginPage/index.tsx:57-95 | incomplete data does nothing; otherwise one login request, and only a non-empty response leads to an auth refetch followed by one navigation to the chosen path |
| `Session.LoginAfterContext` | src/shared/providers/AppProvider.tsx:62-76 | a backend login happens iff there is a context and a non-empty token, with domain "miniapp.anky.app" and "" for a missing username or picture; an `auth` user is written iff the response is non-empty; a throwing login fails the step |
| `Session.MissingUsernameSentEmpty` | src/shared/providers/AppProvider.tsx:63-70 | an absent or empty username is sent as "", and the picture as given |
| `Session.MissingPictureSentEmpty` | src/shared/providers/AppProvider.tsx:63-70 | an absent or empty picture is sent as "", and the username as given |
| `Session.AppSession.constructor` | src/shared/providers/AppProvider.tsx:37-40 | no token, no context, not initialised |
| `Session.AppSession.InitMiniapp` | src/shared/providers/AppProvider.tsx:42-83 | does nothing when already initialised; a token obtained stays set whatever fails later; the context is stored once read; `auth` is written with the response's user only as `LoginAfterContext` says; it ends initialised iff every step completed |
| `Session.AppSession.SignIn` | src/shared/providers/AppProvider.tsx:87-114 | the same steps without `ready`; every failure is swallowed; what was set before a failure stays set; the initialised flag is untouched |
| `Session.AppSession.SignOut` | src/shared/providers/AppProvider.tsx:116-122 | no token, no context, not initialised, `auth` holds null, and every other cache entry is untouched |
| `LeaderboardView.PageRows` | src/pages/LeaderboardPage/index.tsx:159-161 | row i of page p shows user i at position (p-1)·50+i+1 |
| `LeaderboardView.PageRange` | src/pages/LeaderboardPage/index.tsx:186-188 | the range starts at (p-1)·50+1 and ends at min(p·50, total), so the end is at most total and at most p·50 |
| `LeaderboardView.Screen` | src/pages/LeaderboardPage/index.tsx:43-190 | loader iff loading on page 1; then error; then empty iff data with no users; otherwise the rank line, the rows, the range, and a Load More button iff there is a next page (disabled and captioned "Loading..." while loading) |
| `LeaderboardView.RowsConsecutive` | src/pages/LeaderboardPage/index.tsx:159-161 | positions start at the range's first value and increase by one per row |
| `LeaderboardView.PagesDisjoint` | src/pages/LeaderboardPage/index.tsx:161 | different pages never show the same position, and page p+1 starts right after page p's last slot |
| `LeaderboardView.RangeCoversRows` | src/pages/LeaderboardPage/index.tsx:186-188 | when the total counts the listed users, the last row lies inside the range, and a full page ends exactly on the range's end |
| `LeaderboardView.LeaderboardPage.constructor` | src/pages/LeaderboardPage/index.tsx:21 | the page counter starts at 1 |
| `LeaderboardView.LeaderboardPage.Query` | src/pages/LeaderboardPage/index.tsx:22-25 | the query asks for the current page with limit 50 |
| `LeaderboardView.LeaderboardPage.HandleLoadMore` | src/pages/LeaderboardPage/index.tsx:36-40 | the page goes up by exactly 1 iff the data says there is a next page; otherwise nothing changes |
| `MyPodiumView.Screen` | src/pages/ProfilePage/partials/MyPodium/index.tsx:55-183 | loader iff loading on page 1; then error; then empty iff a history with no date keys; otherwise the loaded days, with "Loading more" iff fetching past page 1 |
| `MyPodiumView.CompleteHistoryStops` | src/pages/ProfilePage/partials/MyPodium/index.tsx:47-49 | once the loaded day count reaches `count`, no scroll advances the page |
| `MyPodiumView.PagedHistoryNeverCompletes` | src/pages/ProfilePage/partials/MyPodium/index.tsx:44-53 | with more than 15 days in all, a page of at most 15 never reaches `count`: every idle scroll near the bottom advances, and a page past the last, having no days, shows the empty view |
| `MyPodiumView.MyPodium.constructor` | src/pages/ProfilePage/partials/MyPodium/index.tsx:23 | `pageId` starts at 1 |
| `MyPodiumView.MyPodium.Request` | src/pages/ProfilePage/partials/MyPodium/index.tsx:26-32 | each page asks for 15 days |
| `MyPodiumView.MyPodium.HandleScrollList` | src/pages/ProfilePage/partials/MyPodium/index.tsx:44-53 | the page goes up by exactly 1 iff the scroll is within 50 px of the bottom, nothing is fetching, a history is present and has fewer date keys than `count`; it never goes down |
| `PodiumFeed.GetTimeAgo` | src/pages/PodiumPage/partials/PublicPodiumsFeed/index.tsx:50-62 | "Just now" iff less than an hour has passed, negative differences included; hours below a day; days below a week; the locale date from a week on |
| `PodiumFeed.HoursBucket` | src/pages/PodiumPage/partials/PublicPodiumsFeed/index.tsx:53-58 | the hour count is in 1..23 and is the number of whole hours elapsed |
| `PodiumFeed.DaysBucket` | src/pages/PodiumPage/partials/PublicPodiumsFeed/index.tsx:59-60 | the day count is in 1..6 and is the number of whole days elapsed |
| `PodiumFeed.TimeAgoText` | src/pages/PodiumPage/partials/PublicPodiumsFeed/index.tsx:57-61 | the label reads "Just now", "<h>h ago", "<d>d ago" (whose digits read back as the count) or the locale date |
| `PodiumFeed.FeedOrientation` | src/pages/PodiumPage/partials/PublicPodiumsFeed/index.tsx:140-142 | index 0 is left, 1 is center, any other is right |
| `PodiumFeed.Screen` | src/pages/PodiumPage/partials/PublicPodiumsFeed/index.tsx:64-175 | loader iff loading on page 1; then error; then empty iff no data or no podiums; otherwise the podiums, their count against the total, and a Load More button iff there is a next page |
| `PodiumFeed.PublicPodiumsFeed.constructor` | src/pages/PodiumPage/partials/PublicPodiumsFeed/index.tsx:20 | the page counter starts at 1 |
| `PodiumFeed.PublicPodiumsFeed.Request` | src/pages/PodiumPage/partials/PublicPodiumsFeed/index.tsx:20-26 | each page asks for 20 podiums |
| `PodiumFeed.PublicPodiumsFeed.HandleLoadMore` | src/pages/PodiumPage/partials/PublicPodiumsFeed/index.tsx:41-45 | the page goes up by exactly 1 iff there is a next page |
| `PodiumHistory.OrderType` | src/pages/PodiumPage/partials/RankPodiums/index.tsx:36-37 | "top" iff the period is the week; "all" for month and all time |
| `PodiumHistory.BrandListQuery` | src/pages/PodiumPage/partials/RankPodiums/index.tsx:38 | the brand list is requested with that order, search "", page 1, limit 20 |
| `PodiumHistory.JsSlice` | src/pages/PodiumPage/partials/RankPodiums/index.tsx:51-66 | JavaScript `slice`: both bounds clamped to the length, and element i of the result is element start+i of the input |
| `PodiumHistory.MockHistory` | src/pages/PodiumPage/partials/RankPodiums/index.tsx:48-69 | four entries; entry i holds the window starting at i; the fixed dates and time labels |
| `PodiumHistory.WindowContents` | src/pages/PodiumPage/partials/RankPodiums/index.tsx:47-72 | entry i holds `brands[i .. min(i+3, n))` and at most three brands; it is empty when i ≥ n or no list has arrived |
| `PodiumHistory.WindowSlides` | src/pages/PodiumPage/partials/UserPodiums/index.tsx:49-70 | with enough brands, consecutive entries share two brands: the window moves by one |
| `PodiumHistory.OnlyTodayUnlabelled` | src/pages/PodiumPage/partials/RankPodiums/index.tsx:103 | a time label is drawn for every entry except the first ("Today") |
| `PodiumHistory.RankCards` | src/pages/PodiumPage/partials/RankPodiums/index.tsx:116-128 | at most three cards, the first brands of the entry, at positions 1..3 in order, each with the brand's id, name and image URL; score and variation come from the weekly fields iff the period is the week, else from the all-time fields |
| `PodiumHistory.UserOrientation` | src/pages/PodiumPage/partials/UserPodiums/index.tsx:110-114 | `brandIndex % 3`: 0 left, 1 center, 2 right |
| `PodiumHistory.UserCards` | src/pages/PodiumPage/partials/UserPodiums/index.tsx:104-125 | at most three cards, the first brands of the entry, placed left, center, right, each with the brand's id, name and image URL; score and variation come from the weekly fields iff the period is the week, else from the all-time fields |
| `PodiumHistory.OrientationAgreesWithFeed` | src/pages/PodiumPage/partials/UserPodiums/index.tsx:110-114 | for every card shown, the `% 3` placement equals the feed's index rule; the rules would differ at index 3, which is never shown |
| `PodiumHistory.PodiumHistoryView.constructor` | src/pages/PodiumPage/partials/UserPodiums/index.tsx:28-34 | the history starts empty |
| `PodiumHistory.PodiumHistoryView.Request` | src/pages/PodiumPage/partials/UserPodiums/index.tsx:37-39 | order "top" for the week and "all" otherwise, page 1, limit 20 |
| `PodiumHistory.PodiumHistoryView.SyncHistory` | src/pages/PodiumPage/partials/UserPodiums/index.tsx:47-73 | each change of the data replaces the history with four entries of at most three brands |
| `UserListRow.IntToString` | src/shared/components/UserListItem/index.tsx:35 | `toString`: the digits for a non-negative number, a minus sign before them otherwise |
| `UserListRow.PositionString` | src/shared/components/UserListItem/index.tsx:34-36 | the position's `toString` padded with '0' in front to two characters; a longer string is kept whole |
| `UserListRow.PadStart` | src/shared/components/UserListItem/index.tsx:35 | `padStart`: the result has max(width, length) characters, ends with the input and is filled in front |
| `UserListRow.SingleDigitPadded` | src/shared/components/UserListItem/index.tsx:34-36 | positions 0 to 9 read "0" followed by the digit |
| `UserListRow.WideUnpadded` | src/shared/components/UserListItem/index.tsx:34-36 | positions of two or more digits, and negative ones, are shown exactly as `toString` gives them |
| `UserListRow.PositionRoundTrip` | src/shared/components/UserListItem/index.tsx:35 | the label has max(2, digits) characters and reads back as the position |
| `UserListRow.UserListItem.HandleClick` | src/shared/components/UserListItem/index.tsx:28-32 | a click invokes the callback exactly once when one is given, and does nothing otherwise |

## Left out

- Rendering, styling, animations, confetti, modal and bottom-sheet content,
  and `console` logging are not modelled. Alerts keep only their title and
  text.
- Farcaster SDK calls are inputs to the methods: `quickAuth`, `ready`,
  `context`, `composeCast`, haptics, and the backend's answers. The clock is
  an input too (`Date.now()` in milliseconds).
- `setFarcasterToken` (src/shared/providers/AppProvider.tsx:51) is not
  modelled, because it writes into a service module outside this model.
- React effect scheduling, async interleaving and `refetch` timing are not
  modelled. Callbacks run as sequential steps to completion.
- The effects `useEffect(() => { refetch(); }, [page, refetch])`
  (src/pages/LeaderboardPage/index.tsx:29-31,
  src/pages/ProfilePage/partials/MyPodium/index.tsx:35-37) are not modelled.
  They run once on mount and again on every page change, and `refetch()`
  sends a request whatever the staleness window says. So the leaderboard
  page requests its page on every mount and every page change, even when
  the entry was written less than 120000 ms earlier.
  `LeaderboardQuery.ServedWithinWindow` and
  `LeaderboardQuery.VoteKeepsLeaderboard` describe the cache entry and what a
  plain read of it is served, not the requests the leaderboard page makes.
- Date formatting is not modelled. `formatDistanceToNow` and its "today"
  rule (src/pages/ProfilePage/partials/MyPodium/index.tsx:160-166) and
  `toLocaleDateString` are outside the model. The locale date is a string
  parameter of `TimeAgoText`.
- `getBrandScoreVariation` is not modelled; the model keeps only the value
  passed to it (`VariationSource`).
- Card clicks that navigate to `/brand/<id>`, the "Try Again", "Start
  Voting" and share buttons of the podium tabs, and the no-op `handleShare`
  are not modelled.
- `useLogIn`'s own `auth` write is not modelled. The miniapp login writes
  `auth` in `AppProvider`, which is modelled. The web login page sees the
  mutation only as its outcome.
- Query keys and freshness follow react-query as the source uses it:
  - Only the key structure, staleness window, retry budget, direct writes
    and prefix invalidation are modelled.
  - Garbage collection, background refetching, deduplication of in-flight
    requests, and retry delays are not.
  - `invalidateQueries` also refetches the matching queries that are
    mounted. The vote page mounts `useAuth`, so the hook's `await` on the
    `auth` invalidation (src/shared/hooks/brands/useVoteBrands.ts:31-38)
    waits for a fresh `auth` entry. The page's extra `auth` invalidation
    (src/pages/VotePage/partials/PodiumView/index.tsx:120) then marks that
    refreshed entry again and sends a second `auth` request.
    `VoteMutation.AuthInvalidatedAgain` and the "changes nothing" of
    `PodiumStep.PodiumView.HandleSubmitVote` hold only in the modelled
    cache, which has no such refetch.
  - `queryFn` results are given as a sequence of attempt outcomes.
- `useCallback` dependency lists are not modelled. `handleClickSkip` and
  `handleClickShare` take the vote id, brands and pathname the view was
  created with; a prop change while the view stays mounted is not modelled.
- `ShareStep.SuccessPath`: the clock is a non-negative millisecond count,
  because `Math.floor(Date.now() / 1000)` is taken on a clock after 1970.
- `ShareStep.ShareView.HandleClickShare`: a rejected `composeCast` (which
  would throw before `shareFrame` is requested) is not modelled.
- The leaderboard rows pass `user` and `position` to `UserListItem`
  (src/pages/LeaderboardPage/index.tsx:164). The item's name, photo and
  score props are not modelled; only its position label and click handler
  are.
- The "my podiums" list as a whole: each `useMyVoteHistory` response holds
  one page, and `Object.keys(history.data).length` counts only that page.
  With more than 15 vote days the advance guard never closes, so scrolling
  past the last page requests an empty page, which replaces the list by the
  "No podiums yet!" view (see `PagedHistoryNeverCompletes`).
- `MyPodiumView.VoteHistory`: the days are a `map` from date to podium, so
  the display order of `Object.keys` (insertion order) is not modelled.
- `MyPodiumView.ScrollMetrics`: the scroll measurements are integers; the
  DOM's `scrollTop` can be fractional, and such values are not modelled.
- `Decimal.NatToString`: it agrees with JavaScript's `toString` only below
  2^53 (`Number.MAX_SAFE_INTEGER`). Above that, JavaScript numbers are
  doubles and `toString` prints the shortest digits that read back to the
  same double, so `(2**64).toString()` is "18446744073709552000"; from 1e21
  up it prints exponent notation. More generally, the model's unbounded
  `int` does not capture double precision for positions, page numbers and
  clock readings.
- `PodiumFeed.GetTimeAgo`: the creation time is an integer millisecond
  reading. In the source an unparseable `createdAt` gives an invalid date,
  the hour difference is `NaN`, every comparison fails, and the label is
  `created.toLocaleDateString()` ("Invalid Date")
  (src/pages/PodiumPage/partials/PublicPodiumsFeed/index.tsx:50-61); that
  path is not modelled.
- `signOut` (src/shared/providers/AppProvider.tsx:116-122) sets
  `isInitialized` to false, and the effect keyed on `isInitialized`
  (src/shared/providers/AppProvider.tsx:42-85) then runs `initMiniapp` again.
  When start-up had succeeded (`isInitialized` true), a sign-out in the
  miniapp is therefore followed by a fresh quick-auth sign-in. After a
  failed start-up the flag is already false, so
  `setIsInitialized(false)` (src/shared/providers/AppProvider.tsx:119)
  changes no state and the effect does not run again. `Session.AppSession.SignOut` models the sign-out step alone; a
  caller re-runs `InitMiniapp` to follow the effect.

/**
 * Value types shared by the BRND client components: brands, users, the
 * backend's paged responses and the small wrappers used for results that
 * come from the SDK or the network.
 */
module Domain {

  datatype Option<+T> = None | Some(value: T)

  /** A settled promise or a mutation outcome: a value, or an error message. */
  datatype Result<+T, +E> = Success(value: T) | Failure(error: E)

  function Min(a: int, b: int): int { if a <= b then a else b }
  function Max(a: int, b: int): int { if a >= b then a else b }

  /** JavaScript truthiness of an optional string: present and non-empty. */
  predicate Truthy(s: Option<string>) { s.Some? && s.value != "" }

  /** `s || ""` and `s ?? ""` agree on strings: an absent value becomes "". */
  function OrEmpty(s: Option<string>): string { if s.Some? then s.value else "" }

  /** A brand snapshot as the backend returns it. */
  datatype Brand = Brand(
    id: int,
    name: string,
    imageUrl: string,
    score: int,
    scoreWeek: int,
    stateScore: int,
    stateScoreWeek: int,
    profile: Option<string>,
    channel: Option<string>)

  /** The authenticated user held under the `auth` cache key. */
  datatype User = User(
    fid: int,
    username: string,
    photoUrl: string,
    points: int,
    hasVotedToday: bool)

  /** `authData?.hasVotedToday`: an absent (undefined or null) user does not block. */
  predicate HasVotedToday(auth: Option<User>) { auth.Some? && auth.value.hasVotedToday }

  /** The `pagination` object of every paged list endpoint. */
  datatype Pagination = Pagination(page: int, limit: int, total: int, hasNextPage: bool)

  datatype LeaderboardUser = LeaderboardUser(id: string, fid: int, username: string, points: int)

  datatype CurrentUser = CurrentUser(position: int, points: int)

  datatype LeaderboardResponse = LeaderboardResponse(
    users: seq<LeaderboardUser>,
    pagination: Pagination,
    currentUser: Option<CurrentUser>)

  /** The body of a backend login request, from the web or the miniapp. */
  datatype LoginParams = LoginParams(
    fid: int,
    domain: string,
    username: string,
    token: string,
    photoUrl: string)

  datatype LoginResponse = LoginResponse(user: User, isCreated: bool, hasVotedToday: bool)

  datatype VoteResponse = VoteResponse(id: string)

  /**
   * What a paged list view renders; the three list views test these in the
   * same order: full-page loader, error, empty, list.
   */
  datatype ListScreen<+T> = FullLoader | ErrorState | EmptyState | ListState(content: T)

  /** A brand card's placement in a podium row. */
  datatype Orientation = Left | Center | Right

  /** A paged list's "load more" button: its caption and whether it is disabled. */
  datatype LoadMoreButton = LoadMoreButton(caption: string, disabled: bool)
}

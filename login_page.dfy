/**
 * The web login page: the guard on the sign-in data, the login request and
 * the destination chosen once the auth query has been refetched.
 */
module Login {
  import opened Domain

  const WebDomain := "brnd.lat"

  /** The sign-in callback's data; every field may be absent. */
  datatype SignInData = SignInData(
    fid: Option<int>,
    username: Option<string>,
    token: Option<string>,
    photoUrl: Option<string>)

  /** A number is truthy when present and not zero. */
  predicate TruthyNumber(n: Option<int>) { n.Some? && n.value != 0 }

  predicate SignInComplete(data: Option<SignInData>)
  {
    data.Some? && TruthyNumber(data.value.fid) && Truthy(data.value.username)
    && Truthy(data.value.token) && Truthy(data.value.photoUrl)
  }

  /** The login request issued for the sign-in data, if any. */
  function LoginRequest(data: Option<SignInData>): (r: Option<LoginParams>)
    ensures r.Some? <==> SignInComplete(data)
    ensures r.Some? ==>
      r.value.domain == WebDomain &&
      Some(r.value.fid) == data.value.fid && Some(r.value.username) == data.value.username &&
      Some(r.value.token) == data.value.token && Some(r.value.photoUrl) == data.value.photoUrl
  {
    if SignInComplete(data) then
      var d := data.value;
      Some(LoginParams(d.fid.value, WebDomain, d.username.value, d.token.value, d.photoUrl.value))
    else None
  }

  /** The destination after login; a newly created account wins over the vote check. */
  function NavigatePath(isCreated: bool, hasVotedToday: bool): (path: string)
    ensures path == "/welcome" <==> isCreated
    ensures path == "/vote" <==> !isCreated && !hasVotedToday
    ensures path == "/" <==> !isCreated && hasVotedToday
  {
    if isCreated then "/welcome"
    else if !hasVotedToday then "/vote"
    else "/"
  }

  /** The login mutation's outcome: an error, or the response, which may be empty. */
  datatype LoginOutcome = LoginError | LoginDone(response: Option<LoginResponse>)

  datatype LoginEvent = LoginRequested(params: LoginParams) | AuthRefetched | Navigated(path: string)

  class LoginPage {
    var events: seq<LoginEvent>

    constructor()
      ensures events == []
    {
      events := [];
    }

    /**
     * `handleSignInSuccess`. `outcome` is the login mutation's result, used
     * only when a request was made. The auth query is refetched before the
     * destination is chosen, and only for a non-empty response.
     */
    method HandleSignInSuccess(data: Option<SignInData>, outcome: LoginOutcome)
      modifies this
      ensures LoginRequest(data).None? ==> events == old(events)
      ensures LoginRequest(data).Some? && !(outcome.LoginDone? && outcome.response.Some?) ==>
        events == old(events) + [LoginRequested(LoginRequest(data).value)]
      ensures LoginRequest(data).Some? && outcome.LoginDone? && outcome.response.Some? ==>
        var resp := outcome.response.value;
        events == old(events) + [LoginRequested(LoginRequest(data).value), AuthRefetched,
                                 Navigated(NavigatePath(resp.isCreated, resp.hasVotedToday))]
    {
      var request := LoginRequest(data);
      if request.None? {
        return;
      }
      events := events + [LoginRequested(request.value)];
      if outcome.LoginDone? && outcome.response.Some? {
        var resp := outcome.response.value;
        events := events + [AuthRefetched];
        events := events + [Navigated(NavigatePath(resp.isCreated, resp.hasVotedToday))];
      }
    }
  }
}

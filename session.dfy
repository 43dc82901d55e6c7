/**
 * The app provider's session: the quick-auth token, the miniapp context and
 * the initialised flag, updated step by step by miniapp start-up, sign-in
 * and sign-out, together with the writes of the `auth` cache entry.
 */
module Session {
  import opened Domain
  import opened Cache

  const MiniappDomain := "miniapp.anky.app"

  /** The part of the miniapp context the provider reads: the user's fid, username and picture. */
  datatype FrameContext = FrameContext(fid: int, username: Option<string>, pfpUrl: Option<string>)

  /** A settled SDK promise. */
  datatype Settled<+T> = Resolved(value: T) | Rejected

  /** What the backend login after the context has been read does. */
  datatype LoginStep = LoginStep(request: Option<LoginParams>, authUser: Option<User>, threw: bool)

  /**
   * `if (context && newToken)`: log in with the miniapp data and, for a
   * non-empty response, keep its user for the `auth` entry. `login` is the
   * backend's answer (Failure when the call throws).
   */
  function LoginAfterContext(context: Option<FrameContext>, token: string, login: Result<Option<LoginResponse>, string>): (s: LoginStep)
    ensures s.request.Some? <==> context.Some? && token != ""
    ensures s.request.Some? ==>
      s.request.value == LoginParams(context.value.fid, MiniappDomain, OrEmpty(context.value.username), token, OrEmpty(context.value.pfpUrl))
    ensures s.threw <==> s.request.Some? && login.Failure?
    ensures s.authUser.Some? <==> s.request.Some? && login.Success? && login.value.Some?
    ensures s.authUser.Some? ==> s.authUser.value == login.value.value.user
  {
    if context.Some? && token != "" then
      var c := context.value;
      var request := LoginParams(c.fid, MiniappDomain, OrEmpty(c.username), token, OrEmpty(c.pfpUrl));
      match login
      case Failure(_) => LoginStep(Some(request), None, true)
      case Success(response) =>
        LoginStep(Some(request), if response.Some? then Some(response.value.user) else None, false)
    else LoginStep(None, None, false)
  }

  /** A username that is absent or empty is sent as "", whatever the picture. */
  lemma MissingUsernameSentEmpty(c: FrameContext, token: string, login: Result<Option<LoginResponse>, string>)
    requires token != "" && !Truthy(c.username)
    ensures var r := LoginAfterContext(Some(c), token, login).request;
      r.Some? && r.value.username == "" && r.value.photoUrl == OrEmpty(c.pfpUrl) && r.value.domain == MiniappDomain
  {
  }

  /** A picture that is absent or empty is sent as "", whatever the username. */
  lemma MissingPictureSentEmpty(c: FrameContext, token: string, login: Result<Option<LoginResponse>, string>)
    requires token != "" && !Truthy(c.pfpUrl)
    ensures var r := LoginAfterContext(Some(c), token, login).request;
      r.Some? && r.value.photoUrl == "" && r.value.username == OrEmpty(c.username) && r.value.domain == MiniappDomain
  {
  }

  /** Start-up gets as far as reading the context: quick auth, `ready` and the context all settle. */
  predicate ReachesContext(quickAuth: Settled<string>, ready: bool, context: Settled<Option<FrameContext>>)
  {
    quickAuth.Resolved? && ready && context.Resolved?
  }

  class AppSession {
    var token: Option<string>
    var miniappContext: Option<FrameContext>
    var isInitialized: bool
    const cache: QueryClient

    constructor(cache: QueryClient)
      ensures token == None && miniappContext == None && !isInitialized && this.cache == cache
    {
      token := None;
      miniappContext := None;
      isInitialized := false;
      this.cache := cache;
    }

    /**
     * `initMiniapp`. Each SDK or backend step is an input; `ready` is false
     * when `sdk.actions.ready()` rejects. Returns the login request sent, if
     * any. A start-up that was already done does nothing.
     */
    method InitMiniapp(quickAuth: Settled<string>, ready: bool, context: Settled<Option<FrameContext>>,
                       login: Result<Option<LoginResponse>, string>, now: int)
      returns (request: Option<LoginParams>)
      modifies this, cache
      ensures old(isInitialized) ==>
        token == old(token) && miniappContext == old(miniappContext) && isInitialized &&
        cache.entries == old(cache.entries) && request.None?
      ensures !old(isInitialized) ==>
        token == (if quickAuth.Resolved? then Some(quickAuth.value) else old(token))
      ensures !old(isInitialized) && !ReachesContext(quickAuth, ready, context) ==>
        miniappContext == old(miniappContext) && !isInitialized && request.None? && cache.entries == old(cache.entries)
      ensures !old(isInitialized) && ReachesContext(quickAuth, ready, context) ==>
        var step := LoginAfterContext(context.value, quickAuth.value, login);
        miniappContext == context.value && request == step.request &&
        isInitialized == !step.threw &&
        cache.entries == (if step.authUser.Some? then old(cache.entries)[AuthKey := Written(UserValue(step.authUser.value), now)]
                          else old(cache.entries))
    {
      request := None;
      if isInitialized {
        return;
      }
      if quickAuth.Rejected? {
        isInitialized := false;
        return;
      }
      var newToken := quickAuth.value;
      token := Some(newToken);
      if !ready || context.Rejected? {
        isInitialized := false;
        return;
      }
      miniappContext := context.value;
      var step := LoginAfterContext(context.value, newToken, login);
      request := step.request;
      if step.threw {
        isInitialized := false;
        return;
      }
      if step.authUser.Some? {
        cache.SetQueryData(AuthKey, UserValue(step.authUser.value), now);
      }
      isInitialized := true;
    }

    /**
     * `signIn`: the same steps without `ready` and without touching the
     * initialised flag; every failure is swallowed, and what was set before
     * it stays set.
     */
    method SignIn(quickAuth: Settled<string>, context: Settled<Option<FrameContext>>,
                  login: Result<Option<LoginResponse>, string>, now: int)
      returns (request: Option<LoginParams>)
      modifies this, cache
      ensures isInitialized == old(isInitialized)
      ensures token == (if quickAuth.Resolved? then Some(quickAuth.value) else old(token))
      ensures !(quickAuth.Resolved? && context.Resolved?) ==>
        miniappContext == old(miniappContext) && request.None? && cache.entries == old(cache.entries)
      ensures quickAuth.Resolved? && context.Resolved? ==>
        var step := LoginAfterContext(context.value, quickAuth.value, login);
        miniappContext == context.value && request == step.request &&
        cache.entries == (if step.authUser.Some? then old(cache.entries)[AuthKey := Written(UserValue(step.authUser.value), now)]
                          else old(cache.entries))
    {
      request := None;
      if quickAuth.Rejected? {
        return;
      }
      var newToken := quickAuth.value;
      token := Some(newToken);
      if context.Rejected? {
        return;
      }
      miniappContext := context.value;
      var step := LoginAfterContext(context.value, newToken, login);
      request := step.request;
      if step.authUser.Some? {
        cache.SetQueryData(AuthKey, UserValue(step.authUser.value), now);
      }
    }

    /** `signOut`: clears the session and sets only the `auth` entry to null. */
    method SignOut(now: int)
      modifies this, cache
      ensures token == None && miniappContext == None && !isInitialized
      ensures cache.entries == old(cache.entries)[AuthKey := Written(NullValue, now)]
      ensures forall k :: k != AuthKey ==> (k in cache.entries <==> k in old(cache.entries))
      ensures forall k :: k != AuthKey && k in old(cache.entries) ==> cache.entries[k] == old(cache.entries)[k]
    {
      token := None;
      miniappContext := None;
      isInitialized := false;
      cache.SetQueryData(AuthKey, NullValue, now);
    }
  }
}

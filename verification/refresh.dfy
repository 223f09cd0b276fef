/**
 * navigaid/refresh.go: a cache of access tokens keyed by the Naviga ID token
 * they were issued for. A cached token is reused while it is more than thirty
 * seconds from expiry; otherwise the issuance service is asked for a new one.
 * Time is a parameter, in nanoseconds, as time.Time compares.
 */
module Refresh {
  import opened Base
  import opened ConnectErrors
  import opened AuthContext

  /** What the issuance service answers: a token and its lifetime in seconds. */
  datatype TokenResponse = TokenResponse(accessToken: string, expiresIn: int)

  /** cachedToken: the token and the instant it expires. */
  datatype CachedToken = CachedToken(accessToken: string, expiresAt: int)

  const Second: int := 1_000_000_000
  const FreshnessBuffer: int := 30 * Second

  /** time.Now().Add(30 * time.Second).Before(expiresAt): strictly more than thirty seconds left. */
  predicate IsFresh(entry: CachedToken, now: int) {
    now + FreshnessBuffer < entry.expiresAt
  }

  /** The entry stored for a response received at `now`. */
  function Stored(resp: TokenResponse, now: int): (entry: CachedToken)
    ensures entry.accessToken == resp.accessToken
    ensures resp.expiresIn > 30 ==> IsFresh(entry, now)
    ensures resp.expiresIn <= 30 ==> !IsFresh(entry, now)
  {
    CachedToken(resp.accessToken, now + resp.expiresIn * Second)
  }

  /**
   * The remote issuance service (AccessTokenService.NewAccessToken). Its answer
   * is not known to the model; every request and its answer are logged.
   */
  class AccessTokenService {
    var issued: seq<(string, Result<TokenResponse, Error>)>

    constructor ()
      ensures issued == []
    {
      issued := [];
    }

    method NewAccessToken(navigaIDToken: string) returns (r: Result<TokenResponse, Error>)
      modifies this
      ensures issued == old(issued) + [(navigaIDToken, r)]
    {
      r := *;
      issued := issued + [(navigaIDToken, r)];
    }
  }

  /** TokenRefresher: the issuance service and the token cache. The mutex is not modelled. */
  class TokenRefresher {
    const service: AccessTokenService
    var tokenCache: map<string, CachedToken>

    /** NewTokenRefresher: an empty cache in front of the service. */
    constructor (service: AccessTokenService)
      ensures this.service == service && tokenCache == map[]
    {
      this.service := service;
      tokenCache := map[];
    }

    /**
     * GetAccessToken at instant `now`: a fresh cached token is returned with no
     * request and no change; otherwise the service is asked exactly once, its
     * error is returned with the cache untouched (a stale entry stays), or its
     * token is returned and stored with expiry now + ExpiresIn seconds, other
     * keys unchanged.
     */
    method GetAccessToken(now: int, navigaIDToken: string) returns (r: Result<string, Error>)
      modifies this, service
      ensures var hit := navigaIDToken in old(tokenCache) && IsFresh(old(tokenCache)[navigaIDToken], now);
        && (hit ==> r == Success(old(tokenCache)[navigaIDToken].accessToken)
                    && tokenCache == old(tokenCache) && service.issued == old(service.issued))
        && (!hit ==>
              && |service.issued| == |old(service.issued)| + 1
              && service.issued[..|old(service.issued)|] == old(service.issued)
              && var (asked, answer) := service.issued[|old(service.issued)|];
                 && asked == navigaIDToken
                 && (answer.Failure? ==> r == Failure(answer.error) && tokenCache == old(tokenCache))
                 && (answer.Success? ==>
                       r == Success(answer.value.accessToken) &&
                       tokenCache == old(tokenCache)[navigaIDToken := Stored(answer.value, now)]))
    {
      if navigaIDToken in tokenCache {
        var cached := tokenCache[navigaIDToken];
        if IsFresh(cached, now) {
          return Success(cached.accessToken);
        }
      }
      var tokenResp := service.NewAccessToken(navigaIDToken);
      if tokenResp.Failure? {
        return Failure(tokenResp.error);
      }
      tokenCache := tokenCache[navigaIDToken := Stored(tokenResp.value, now)];
      return Success(tokenResp.value.accessToken);
    }
  }

  /**
   * Two calls at the same instant with the same key: when the first one has the
   * service issue a token that lives more than thirty seconds, the second one
   * returns that token without asking the service again; when the first one is
   * answered from the cache, so is the second.
   */
  method ImmediateRepeatHitsCache(refresher: TokenRefresher, now: int, navigaIDToken: string)
    returns (first: Result<string, Error>, second: Result<string, Error>)
    modifies refresher, refresher.service
    ensures |refresher.service.issued| >= |old(refresher.service.issued)|
    ensures var n := |old(refresher.service.issued)|;
      |refresher.service.issued| > n && refresher.service.issued[n].1.Success? &&
      refresher.service.issued[n].1.value.expiresIn > 30 ==>
        |refresher.service.issued| == n + 1 && first.Success? && second == first
    ensures |refresher.service.issued| == |old(refresher.service.issued)| ==> first.Success? && second == first
  {
    first := refresher.GetAccessToken(now, navigaIDToken);
    second := refresher.GetAccessToken(now, navigaIDToken);
  }

  /** The refresh step of WithTokenRefresh: it always fails, and says why. */
  function RefreshToken(ctx: Context, configured: bool): (r: (Context, Option<Error>))
    ensures r.1.Some?
    ensures !configured ==> r.1 == Some(Plain("token refresher not configured"))
    ensures configured ==> r.1 == Some(Plain("token refresh not implemented"))
  {
    if !configured then (ctx, Some(Plain("token refresher not configured")))
    else (ctx, Some(Plain("token refresh not implemented")))
  }

  /**
   * WithTokenRefresh(ctx, refresher, fn), with `configured` saying whether the
   * refresher is non-nil: the GetAuth error without calling fn when there is no
   * auth; otherwise fn's result, except that "token expired" is replaced by the
   * refresh error, so fn is never called a second time.
   */
  function WithTokenRefresh(ctx: Context, configured: bool, fn: Context -> Option<Error>): (r: Option<Error>)
    ensures GetAuth(ctx).Failure? ==> r == Some(GetAuth(ctx).error)
    ensures GetAuth(ctx).Success? && fn(ctx).Some? && Text(fn(ctx).value) == "token expired" ==>
              r == Some(Plain(if configured then "token refresh not implemented" else "token refresher not configured"))
    ensures GetAuth(ctx).Success? && !(fn(ctx).Some? && Text(fn(ctx).value) == "token expired") ==> r == fn(ctx)
  {
    match GetAuth(ctx)
    case Failure(err) => Some(err)
    case Success(_) =>
      var err := fn(ctx);
      if err.Some? then
        if Text(err.value) == "token expired" then
          var (newCtx, refreshErr) := RefreshToken(ctx, configured);
          if refreshErr.Some? then refreshErr else fn(newCtx)
        else err
      else None
  }

  /** A Connect error never counts as an expired token, whatever its message. */
  lemma ConnectErrorsAreNotRefreshed(ctx: Context, configured: bool, fn: Context -> Option<Error>)
    requires GetAuth(ctx).Success? && fn(ctx).Some? && fn(ctx).value.Connect?
    ensures WithTokenRefresh(ctx, configured, fn) == fn(ctx)
  {
    ConnectTextIsNotTokenExpired(fn(ctx).value);
  }
}

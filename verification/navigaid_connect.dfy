/**
 * navigaid/connect.go: the authentication gate, the permission gates and the
 * context checks they rely on. A gate either rejects the call with an error
 * or lets it continue, calling `next` exactly once with the context it names.
 */
module NavigaConnect {
  import opened Base
  import opened Strings
  import opened ConnectErrors
  import opened Rpc
  import opened Claims
  import opened AuthContext

  const AuthorizationHeader := "Authorization"
  /** "x-imid-token" in its canonical form, as Header().Get looks it up. */
  const ImidTokenHeader := "X-Imid-Token"
  const BearerPrefix := "Bearer "

  /** The token validator (jwks.Validate): claims for a good token, an error otherwise. */
  type Validator = string -> Result<Claims, Error>

  /** What a gate does with a call: reject it, or call `next` once with `ctx`. */
  datatype Step = Reject(err: Error) | Proceed(ctx: Context)

  /**
   * extractAccessToken: the credential after "Bearer " in Authorization (a bare
   * "Bearer " yields "" and no fallback); otherwise the legacy X-Imid-Token
   * header, or "" when that is absent too.
   */
  function ExtractAccessToken(h: Header): (token: string)
    ensures HasPrefix(Get(h, AuthorizationHeader), BearerPrefix) ==>
      Get(h, AuthorizationHeader) == BearerPrefix + token
    ensures !HasPrefix(Get(h, AuthorizationHeader), BearerPrefix) ==>
      token == Get(h, ImidTokenHeader)
  {
    var authHeader := Get(h, AuthorizationHeader);
    if authHeader != "" && HasPrefix(authHeader, BearerPrefix) then
      TrimPrefix(authHeader, BearerPrefix)
    else
      var imidToken := Get(h, ImidTokenHeader);
      if imidToken != "" then imidToken else ""
  }

  /** A bearer credential round-trips through the Authorization header, whatever else is present. */
  lemma BearerRoundTrip(h: Header, token: string)
    ensures ExtractAccessToken(h[AuthorizationHeader := BearerPrefix + token]) == token
  {
    var h' := h[AuthorizationHeader := BearerPrefix + token];
    assert (BearerPrefix + token)[..|BearerPrefix|] == BearerPrefix;
    assert Get(h', AuthorizationHeader) == BearerPrefix + token;
  }

  /** A bare "Bearer " yields the empty token even when X-Imid-Token is set: no fallback. */
  lemma BareBearerHasNoFallback(h: Header)
    requires Get(h, AuthorizationHeader) == BearerPrefix
    ensures ExtractAccessToken(h) == ""
  {
    assert BearerPrefix == BearerPrefix + "";
  }

  /**
   * ConnectInterceptor: rejects a call without a token ("authentication
   * required") or with a token the validator refuses ("invalid token"), both
   * Unauthenticated and without touching the context; otherwise continues with
   * a context whose GetAuth yields the token and its claims.
   */
  function ConnectInterceptor(validate: Validator, ctx: Context, req: Request): (s: Step)
    ensures var token := ExtractAccessToken(req.header);
      && (token == "" ==> s == Reject(NewError(Unauthenticated, "authentication required")))
      && (token != "" && validate(token).Failure? ==> s == Reject(NewError(Unauthenticated, "invalid token")))
      && (token != "" && validate(token).Success? ==>
            s.Proceed? && GetAuth(s.ctx) == Success(AuthInfo(token, validate(token).value)))
  {
    var accessToken := ExtractAccessToken(req.header);
    if accessToken == "" then
      Reject(NewError(Unauthenticated, "authentication required"))
    else
      match validate(accessToken)
      case Failure(_) => Reject(NewError(Unauthenticated, "invalid token"))
      case Success(claims) => Proceed(SetAuth(ctx, AuthInfo(accessToken, claims), None))
  }

  /** AuthenticateConnect: the auth info, or "authentication required" in place of whatever GetAuth reported. */
  function AuthenticateConnect(ctx: Context): (r: Result<AuthInfo, Error>)
    ensures GetAuth(ctx).Success? ==> r == GetAuth(ctx)
    ensures GetAuth(ctx).Failure? ==> r == Failure(Plain("authentication required"))
  {
    match GetAuth(ctx)
    case Failure(_) => Failure(Plain("authentication required"))
    case Success(a) => Success(a)
  }

  /**
   * CheckPermissionConnect: nil exactly when the context holds auth whose
   * claims grant `permission` at organisation scope.
   */
  function CheckPermissionConnect(ctx: Context, permission: string): (r: Option<Error>)
    ensures r.None? <==> GetAuth(ctx).Success? && HasPermissionsInOrganisation(GetAuth(ctx).value.claims, permission)
    ensures GetAuth(ctx).Failure? ==> r == Some(Plain("authentication required"))
    ensures r.Some? && GetAuth(ctx).Success? ==> r == Some(Plain("missing required permission: " + permission))
  {
    match GetAuth(ctx)
    case Failure(_) => Some(Plain("authentication required"))
    case Success(authInfo) =>
      if !HasPermissionsInOrganisation(authInfo.claims, permission) then
        Some(Plain("missing required permission: " + permission))
      else None
  }

  /**
   * CheckUnitPermissionConnect: nil exactly when the context holds auth whose
   * claims grant `permission` in `unit`; organisation grants do not count.
   */
  function CheckUnitPermissionConnect(ctx: Context, unit: string, permission: string): (r: Option<Error>)
    ensures r.None? <==> GetAuth(ctx).Success? && HasPermissionsInUnit(GetAuth(ctx).value.claims, unit, permission)
    ensures GetAuth(ctx).Failure? ==> r == Some(Plain("authentication required"))
    ensures r.Some? && GetAuth(ctx).Success? ==> r == Some(Plain("missing required permission for unit: " + permission))
  {
    match GetAuth(ctx)
    case Failure(_) => Some(Plain("authentication required"))
    case Success(authInfo) =>
      if !HasPermissionsInUnit(authInfo.claims, unit, permission) then
        Some(Plain("missing required permission for unit: " + permission))
      else None
  }

  /**
   * RequirePermission: continues with the same context exactly when
   * CheckPermissionConnect passes; every failure, missing authentication
   * included, becomes PermissionDenied "missing required permission: p".
   */
  function RequirePermission(permission: string, ctx: Context): (s: Step)
    ensures s == Proceed(ctx) <==> GetAuth(ctx).Success? && HasPermissionsInOrganisation(GetAuth(ctx).value.claims, permission)
    ensures s.Reject? ==> s.err == NewError(PermissionDenied, "missing required permission: " + permission)
  {
    if CheckPermissionConnect(ctx, permission).Some? then
      Reject(NewError(PermissionDenied, "missing required permission: " + permission))
    else Proceed(ctx)
  }

  /**
   * RequireUnitPermission: continues exactly when the unit grants the
   * permission; otherwise PermissionDenied "missing required permission for unit: u/p".
   */
  function RequireUnitPermission(unit: string, permission: string, ctx: Context): (s: Step)
    ensures s == Proceed(ctx) <==> GetAuth(ctx).Success? && HasPermissionsInUnit(GetAuth(ctx).value.claims, unit, permission)
    ensures s.Reject? ==> s.err == NewError(PermissionDenied, "missing required permission for unit: " + unit + "/" + permission)
  {
    if CheckUnitPermissionConnect(ctx, unit, permission).Some? then
      Reject(NewError(PermissionDenied, "missing required permission for unit: " + unit + "/" + permission))
    else Proceed(ctx)
  }

  /** ConnectAuthError: a message and a code name; its Error() is the message. */
  datatype ConnectAuthError = ConnectAuthError(message: string, code: string)

  /** NewAuthRequiredError */
  function NewAuthRequiredError(): (e: ConnectAuthError)
    ensures e.message == "Authentication required" && e.code == CodeString(Unauthenticated)
  {
    ConnectAuthError("Authentication required", "unauthenticated")
  }

  /** NewPermissionDeniedError: the message names the permission, the code is Connect's permission_denied. */
  function NewPermissionDeniedError(permission: string): (e: ConnectAuthError)
    ensures e.message == "Permission denied: " + permission && e.code == CodeString(PermissionDenied)
  {
    ConnectAuthError("Permission denied: " + permission, "permission_denied")
  }
}

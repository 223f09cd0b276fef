/**
 * pathperms.go: path-scoped organisation permissions. The first configuration,
 * in list order, whose prefix matches the path decides; its permissions must
 * all be granted at organisation scope.
 */
module PathPerms {
  import opened Base
  import opened Strings
  import opened ConnectErrors
  import opened Rpc
  import opened Claims
  import opened AuthContext
  import opened NavigaConnect

  datatype PathPermissionConfig = PathPermissionConfig(pathPrefix: string, permissions: seq<string>)

  /** Index of the first configuration whose prefix matches `path`, or |configs| when none does. */
  function FirstMatch(configs: seq<PathPermissionConfig>, path: string): (i: nat)
    ensures i <= |configs|
    ensures i < |configs| ==> HasPrefix(path, configs[i].pathPrefix)
    ensures forall j :: 0 <= j < i ==> !HasPrefix(path, configs[j].pathPrefix)
    decreases |configs|
  {
    if configs == [] then 0
    else if HasPrefix(path, configs[0].pathPrefix) then 0
    else 1 + FirstMatch(configs[1..], path)
  }

  /** Index of the first permission the claims do not grant at organisation scope, or |perms|. */
  function FirstMissing(c: Claims, perms: seq<string>): (i: nat)
    ensures i <= |perms|
    ensures i < |perms| ==> !HasPermissionsInOrganisation(c, perms[i])
    ensures forall j :: 0 <= j < i ==> HasPermissionsInOrganisation(c, perms[j])
    decreases |perms|
  {
    if perms == [] then 0
    else if !HasPermissionsInOrganisation(c, perms[0]) then 0
    else 1 + FirstMissing(c, perms[1..])
  }

  /**
   * What PathInterceptors does with a call on `path`: pass straight through when
   * no configuration matches (auth is not consulted); Unauthenticated when one
   * matches and there is no auth; otherwise continue exactly when every
   * permission of the matched configuration is an organisation grant, and
   * report the first one missing.
   */
  function PathGateStep(configs: seq<PathPermissionConfig>, ctx: Context, path: string): (s: Step)
    ensures (forall j :: 0 <= j < |configs| ==> !HasPrefix(path, configs[j].pathPrefix)) ==> s == Proceed(ctx)
    ensures var m := FirstMatch(configs, path);
      m < |configs| ==>
        && (GetAuth(ctx).Failure? ==> s == Reject(NewError(Unauthenticated, "authentication required")))
        && (GetAuth(ctx).Success? ==>
              && (s == Proceed(ctx) <==>
                    forall p :: p in configs[m].permissions ==> HasPermissionsInOrganisation(GetAuth(ctx).value.claims, p))
              && (s.Reject? ==>
                    (exists k :: 0 <= k < |configs[m].permissions| &&
                       s.err == NewError(PermissionDenied, "missing required permission: " + configs[m].permissions[k]) &&
                       !HasPermissionsInOrganisation(GetAuth(ctx).value.claims, configs[m].permissions[k]) &&
                       forall j :: 0 <= j < k ==> HasPermissionsInOrganisation(GetAuth(ctx).value.claims, configs[m].permissions[j]))))
  {
    var m := FirstMatch(configs, path);
    if m == |configs| then Proceed(ctx)
    else
      match GetAuth(ctx)
      case Failure(_) => Reject(NewError(Unauthenticated, "authentication required"))
      case Success(authInfo) =>
        var perms := configs[m].permissions;
        var k := FirstMissing(authInfo.claims, perms);
        if k < |perms| then Reject(NewError(PermissionDenied, "missing required permission: " + perms[k]))
        else Proceed(ctx)
  }

  /** The search loop shared by ServeHTTP and PathInterceptors: the first matching configuration, if any. */
  method FindConfig(configs: seq<PathPermissionConfig>, path: string) returns (matched: Option<PathPermissionConfig>)
    ensures matched.None? <==> FirstMatch(configs, path) == |configs|
    ensures matched.Some? ==> matched.value == configs[FirstMatch(configs, path)]
  {
    matched := None;
    var i := 0;
    while i < |configs|
      invariant 0 <= i <= |configs|
      invariant forall j :: 0 <= j < i ==> !HasPrefix(path, configs[j].pathPrefix)
    {
      if HasPrefix(path, configs[i].pathPrefix) {
        matched := Some(configs[i]);
        break;
      }
      i := i + 1;
    }
  }

  /** The permission loop: the first permission not granted at organisation scope, if any. */
  method MissingPermission(c: Claims, perms: seq<string>) returns (missing: Option<string>)
    ensures missing.None? <==> FirstMissing(c, perms) == |perms|
    ensures missing.Some? ==> missing.value == perms[FirstMissing(c, perms)]
  {
    for i := 0 to |perms|
      invariant forall j :: 0 <= j < i ==> HasPermissionsInOrganisation(c, perms[j])
    {
      if !HasPermissionsInOrganisation(c, perms[i]) {
        return Some(perms[i]);
      }
    }
    return None;
  }

  /** What PathPermissionHandler.ServeHTTP does: serve with the wrapped handler, or answer with http.Error(message, status). */
  datatype Decision = Forward | HttpError(status: int, message: string)

  /**
   * The HTTP handler's decision read off the interceptor's: forward what the
   * interceptor lets through, 401 for what it rejects as Unauthenticated and
   * 403 for the rest.
   */
  function HttpDecision(configs: seq<PathPermissionConfig>, ctx: Context, path: string): Decision {
    match PathGateStep(configs, ctx, path)
    case Proceed(_) => Forward
    case Reject(err) =>
      if err.Connect? && err.code == Unauthenticated then HttpError(401, "Authentication required")
      else HttpError(403, "Permission denied")
  }

  /** A protected path without auth is answered 401 "Authentication required". */
  lemma MatchedWithoutAuth(configs: seq<PathPermissionConfig>, ctx: Context, path: string)
    requires GetAuth(ctx).Failure? && FirstMatch(configs, path) < |configs|
    ensures HttpDecision(configs, ctx, path) == HttpError(401, "Authentication required")
  {
    assert PathGateStep(configs, ctx, path) == Reject(NewError(Unauthenticated, "authentication required"));
  }

  /**
   * PathPermissionHandler.ServeHTTP: the wrapped handler serves the request when
   * no configuration matches, or when one matches, auth is present and every
   * permission it lists is an organisation grant; otherwise 401 without auth
   * and 403 for a missing permission.
   */
  method ServeHTTP(configs: seq<PathPermissionConfig>, ctx: Context, path: string) returns (d: Decision)
    ensures FirstMatch(configs, path) == |configs| ==> d == Forward
    ensures var m := FirstMatch(configs, path);
      m < |configs| ==>
        && (GetAuth(ctx).Failure? ==> d == HttpError(401, "Authentication required"))
        && (GetAuth(ctx).Success? ==>
              && (d == Forward <==>
                    forall p :: p in configs[m].permissions ==> HasPermissionsInOrganisation(GetAuth(ctx).value.claims, p))
              && (d != Forward ==> d == HttpError(403, "Permission denied")))
    ensures d == HttpDecision(configs, ctx, path)
  {
    var matchedConfig := FindConfig(configs, path);
    if matchedConfig.None? {
      return Forward;
    }
    var authInfo := GetAuth(ctx);
    if authInfo.Failure? {
      return HttpError(401, "Authentication required");
    }
    var missing := MissingPermission(authInfo.value.claims, matchedConfig.value.permissions);
    if missing.Some? {
      return HttpError(403, "Permission denied");
    }
    return Forward;
  }

  /** PathInterceptors: the interceptor's decision for a call, as PathGateStep states it. */
  method PathInterceptors(configs: seq<PathPermissionConfig>, ctx: Context, req: Request) returns (s: Step)
    ensures s == PathGateStep(configs, ctx, req.procedure)
  {
    var path := req.procedure;
    var matchedConfig := FindConfig(configs, path);
    if matchedConfig.None? {
      return Proceed(ctx);
    }
    var authInfo := GetAuth(ctx);
    if authInfo.Failure? {
      return Reject(NewError(Unauthenticated, "authentication required"));
    }
    var missing := MissingPermission(authInfo.value.claims, matchedConfig.value.permissions);
    if missing.Some? {
      return Reject(NewError(PermissionDenied, "missing required permission: " + missing.value));
    }
    return Proceed(ctx);
  }

  /** A matched configuration with no permissions still demands auth, and then lets the call through. */
  lemma EmptyPermissionsNeedOnlyAuth(configs: seq<PathPermissionConfig>, ctx: Context, path: string)
    requires FirstMatch(configs, path) < |configs|
    requires configs[FirstMatch(configs, path)].permissions == []
    ensures PathGateStep(configs, ctx, path) == (if GetAuth(ctx).Success? then Proceed(ctx)
                                                  else Reject(NewError(Unauthenticated, "authentication required")))
  {
  }

  /** Configurations after the first match are never consulted. */
  lemma {:induction false} LaterConfigsIgnored(configs: seq<PathPermissionConfig>, more: seq<PathPermissionConfig>, ctx: Context, path: string)
    requires FirstMatch(configs, path) < |configs|
    ensures PathGateStep(configs + more, ctx, path) == PathGateStep(configs, ctx, path)
  {
    FirstMatchPrefix(configs, more, path);
  }

  lemma {:induction false} FirstMatchPrefix(configs: seq<PathPermissionConfig>, more: seq<PathPermissionConfig>, path: string)
    requires FirstMatch(configs, path) < |configs|
    ensures FirstMatch(configs + more, path) == FirstMatch(configs, path)
    ensures (configs + more)[FirstMatch(configs, path)] == configs[FirstMatch(configs, path)]
    decreases |configs|
  {
    if !HasPrefix(path, configs[0].pathPrefix) {
      assert (configs + more)[1..] == configs[1..] + more;
      FirstMatchPrefix(configs[1..], more, path);
    }
  }
}

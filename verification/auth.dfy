/**
 * auth.go: the unscoped permission check ("organisation or any unit") that
 * handlers call themselves, and the helpers that read the authenticated
 * user's details out of a request context.
 */
module Auth {
  import opened Base
  import opened ConnectErrors
  import opened Claims
  import opened AuthContext
  import opened MapCollect
  import NavigaConnect

  /** AuthResult */
  datatype AuthResult = AuthResult(
    organization: string,
    givenName: string,
    familyName: string,
    email: string,
    userID: string,
    permissions: seq<string>,
    groups: seq<string>)

  /** The claims grant `permission` at organisation scope or in some unit. */
  predicate GrantedAnywhere(c: Claims, permission: string) {
    HasPermissionsInOrganisation(c, permission) ||
    exists unit :: unit in c.permissions.units && HasPermissionsInUnit(c, unit, permission)
  }

  /** A unit's permission list, as the flattening loop contributes it. */
  ghost function UnitList(unit: string, perms: seq<string>): multiset<string> {
    multiset(perms)
  }

  /** All unit grants of the claims, in no particular order. */
  ghost function UnitGrants(c: Claims): multiset<string> {
    Collect(c.permissions.units, c.permissions.units.Keys, UnitList)
  }

  /**
   * checkUserPermission: the empty permission always passes; otherwise the
   * permission must be an organisation grant or appear in some unit's list.
   */
  method CheckUserPermission(c: Claims, permission: string) returns (ok: bool)
    ensures ok <==> permission == "" || GrantedAnywhere(c, permission)
  {
    if permission == "" {
      return true;
    }
    if HasPermissionsInOrganisation(c, permission) {
      return true;
    }
    var remaining := c.permissions.units.Keys;
    while remaining != {}
      invariant remaining <= c.permissions.units.Keys
      invariant forall unit :: unit in c.permissions.units && unit !in remaining ==> !HasPermissionsInUnit(c, unit, permission)
      decreases remaining
    {
      var unit :| unit in remaining;
      if HasPermissionsInUnit(c, unit, permission) {
        return true;
      }
      remaining := remaining - {unit};
    }
    return false;
  }

  /**
   * AuthorizeWithDetails: Unauthenticated without auth, PermissionDenied
   * "missing required permission: p" when the unscoped check fails, and
   * otherwise the user's details copied from the claims together with every
   * permission they hold: the organisation list first, then each unit's list
   * in map order.
   */
  method AuthorizeWithDetails(ctx: Context, permission: string) returns (result: Result<AuthResult, Error>)
    ensures GetAuth(ctx).Failure? ==>
              result == Failure(NewError(Unauthenticated, "failed to get authorization: " + Text(GetAuth(ctx).error)))
    ensures GetAuth(ctx).Success? && !(permission == "" || GrantedAnywhere(GetAuth(ctx).value.claims, permission)) ==>
              result == Failure(NewError(PermissionDenied, "missing required permission: " + permission))
    ensures GetAuth(ctx).Success? && (permission == "" || GrantedAnywhere(GetAuth(ctx).value.claims, permission)) ==>
              var c := GetAuth(ctx).value.claims;
              && result.Success?
              && result.value.organization == c.org
              && result.value.givenName == c.userinfo.givenName
              && result.value.familyName == c.userinfo.familyName
              && result.value.email == c.userinfo.email
              && result.value.userID == c.subject
              && result.value.groups == c.groups
              && |c.permissions.org| <= |result.value.permissions|
              && result.value.permissions[..|c.permissions.org|] == c.permissions.org
              && multiset(result.value.permissions) == multiset(c.permissions.org) + UnitGrants(c)
              && |result.value.permissions| == |c.permissions.org| + |UnitGrants(c)|
  {
    var auth := GetAuth(ctx);
    if auth.Failure? {
      return Failure(NewError(Unauthenticated, "failed to get authorization: " + Text(auth.error)));
    }
    var c := auth.value.claims;
    var ok := CheckUserPermission(c, permission);
    if !ok {
      return Failure(NewError(PermissionDenied, "missing required permission: " + permission));
    }
    var units := c.permissions.units;
    var allPermissions := c.permissions.org;
    var remaining := units.Keys;
    while remaining != {}
      invariant remaining <= units.Keys
      invariant |c.permissions.org| <= |allPermissions|
      invariant allPermissions[..|c.permissions.org|] == c.permissions.org
      invariant multiset(allPermissions) + Collect(units, remaining, UnitList) == multiset(c.permissions.org) + UnitGrants(c)
      decreases remaining
    {
      var unit :| unit in remaining;
      CollectRemove(units, remaining, UnitList, unit);
      allPermissions := allPermissions + units[unit];
      remaining := remaining - {unit};
    }
    assert |multiset(allPermissions)| == |allPermissions|;
    result := Success(AuthResult(
      organization := c.org,
      givenName := c.userinfo.givenName,
      familyName := c.userinfo.familyName,
      email := c.userinfo.email,
      userID := c.subject,
      permissions := allPermissions,
      groups := c.groups));
  }

  /** Every permission the flattened list holds is granted somewhere, and every grant is in it. */
  lemma FlattenedPermissionsAreGrants(c: Claims, p: string)
    ensures p in multiset(c.permissions.org) + UnitGrants(c) <==> GrantedAnywhere(c, p)
  {
    CollectMember(c.permissions.units, c.permissions.units.Keys, UnitList, p);
  }

  /**
   * GetAuthResultFromContext: AuthorizeWithDetails with no permission, so it
   * fails only for want of auth, and otherwise returns every detail of the claims.
   */
  method GetAuthResultFromContext(ctx: Context) returns (result: Result<AuthResult, Error>)
    ensures result.Success? <==> GetAuth(ctx).Success?
    ensures result.Failure? ==> result.error.Connect? && result.error.code == Unauthenticated
    ensures GetAuth(ctx).Failure? ==>
              result == Failure(NewError(Unauthenticated, "failed to get authorization: " + Text(GetAuth(ctx).error)))
    ensures GetAuth(ctx).Success? ==>
              var c := GetAuth(ctx).value.claims;
              && result.Success?
              && result.value.organization == c.org
              && result.value.givenName == c.userinfo.givenName
              && result.value.familyName == c.userinfo.familyName
              && result.value.email == c.userinfo.email
              && result.value.userID == c.subject
              && result.value.groups == c.groups
              && |c.permissions.org| <= |result.value.permissions|
              && result.value.permissions[..|c.permissions.org|] == c.permissions.org
              && multiset(result.value.permissions) == multiset(c.permissions.org) + UnitGrants(c)
              && |result.value.permissions| == |c.permissions.org| + |UnitGrants(c)|
  {
    result := AuthorizeWithDetails(ctx, "");
  }

  /**
   * OrganizationFromContext: the claims' organisation, or the GetAuth error
   * wrapped (%w) as "failed to get organization: ...", so errors.As still
   * reaches a Connect error GetAuth returned.
   */
  function OrganizationFromContext(ctx: Context): (r: Result<string, Error>)
    ensures GetAuth(ctx).Success? ==> r == Success(GetAuth(ctx).value.claims.org)
    ensures GetAuth(ctx).Failure? ==>
              r == Failure(Wrapped("failed to get organization: " + Text(GetAuth(ctx).error), GetAuth(ctx).error))
    ensures r.Failure? ==> AsConnect(r.error) == AsConnect(GetAuth(ctx).error)
  {
    match GetAuth(ctx)
    case Failure(err) =>
      assert UnwrapChain(Wrapped("failed to get organization: " + Text(err), err))[1..] == UnwrapChain(err);
      Failure(Wrapped("failed to get organization: " + Text(err), err))
    case Success(auth) => Success(auth.claims.org)
  }

  /** UserFromContext: (given name, family name), or two empty strings without auth. */
  function UserFromContext(ctx: Context): (r: (string, string))
    ensures GetAuth(ctx).Failure? ==> r == ("", "")
    ensures GetAuth(ctx).Success? ==>
              r == (GetAuth(ctx).value.claims.userinfo.givenName, GetAuth(ctx).value.claims.userinfo.familyName)
  {
    match GetAuth(ctx)
    case Failure(_) => ("", "")
    case Success(auth) => (auth.claims.userinfo.givenName, auth.claims.userinfo.familyName)
  }

  /** EmailFromContext: the e-mail address, or "" without auth. */
  function EmailFromContext(ctx: Context): (email: string)
    ensures GetAuth(ctx).Failure? ==> email == ""
    ensures GetAuth(ctx).Success? ==> email == GetAuth(ctx).value.claims.userinfo.email
  {
    match GetAuth(ctx)
    case Failure(_) => ""
    case Success(auth) => auth.claims.userinfo.email
  }

  /** HasPermission: false without auth, otherwise the unscoped check. */
  method HasPermission(ctx: Context, permission: string) returns (ok: bool)
    ensures GetAuth(ctx).Failure? ==> !ok
    ensures GetAuth(ctx).Success? ==> (ok <==> permission == "" || GrantedAnywhere(GetAuth(ctx).value.claims, permission))
  {
    var auth := GetAuth(ctx);
    if auth.Failure? {
      return false;
    }
    ok := CheckUserPermission(auth.value.claims, permission);
  }

  /**
   * The unscoped check accepts whatever the scoped Connect gates accept: a call
   * that passes RequirePermission or RequireUnitPermission also passes HasPermission.
   */
  lemma ScopedGatesImplyUnscoped(ctx: Context, unit: string, permission: string)
    ensures NavigaConnect.RequirePermission(permission, ctx).Proceed? ==>
              GetAuth(ctx).Success? && GrantedAnywhere(GetAuth(ctx).value.claims, permission)
    ensures NavigaConnect.RequireUnitPermission(unit, permission, ctx).Proceed? ==>
              GetAuth(ctx).Success? && GrantedAnywhere(GetAuth(ctx).value.claims, permission)
  {
  }
}

/**
 * The claims a validated Naviga ID token carries. The permission lookups are
 * membership tests: organisation-scope grants in `permissions.org`, unit-scope
 * grants in `permissions.units[unit]`.
 */
module Claims {

  datatype Userinfo = Userinfo(givenName: string, familyName: string, email: string)

  datatype PermissionsClaim = PermissionsClaim(org: seq<string>, units: map<string, seq<string>>)

  datatype Claims = Claims(
    subject: string,
    org: string,
    groups: seq<string>,
    userinfo: Userinfo,
    tokenType: string,
    permissions: PermissionsClaim)

  /** Claims.HasPermissionsInOrganisation */
  predicate HasPermissionsInOrganisation(c: Claims, permission: string) {
    permission in c.permissions.org
  }

  /** Claims.HasPermissionsInUnit: false, not an error, for a unit the claims do not name. */
  predicate HasPermissionsInUnit(c: Claims, unit: string, permission: string) {
    unit in c.permissions.units && permission in c.permissions.units[unit]
  }
}

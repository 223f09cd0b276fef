/**
 * cors/cors.go: the origin validator used by the CORS interceptors. An allowed
 * domain is a suffix of the origin, "*" is a wildcard, and plain-HTTP origins
 * are refused unless HTTP is allowed.
 */
module Cors {
  import opened Strings

  /** DefaultDomains: the default allowed domain suffixes. */
  const DefaultDomains: seq<string> := [".infomaker.io", ".navigacloud.com"]

  /** Options: whether plain-HTTP origins are allowed, and the allowed domain suffixes. */
  datatype Options = Options(allowHTTP: bool, allowedDomains: seq<string>)

  /** The defaulting every CORS option applies: DefaultDomains when no domain is given. */
  function WithDefaultDomains(allowedDomains: seq<string>): (domains: seq<string>)
    ensures allowedDomains == [] ==> domains == DefaultDomains
    ensures allowedDomains != [] ==> domains == allowedDomains
    ensures domains != []
  {
    if |allowedDomains| == 0 then DefaultDomains else allowedDomains
  }

  const Wildcard := "*"
  const HttpsScheme := "https://"

  /** Some allowed domain other than the wildcard is a suffix of the origin. */
  predicate MatchesSuffix(allowedDomains: seq<string>, origin: string) {
    exists d :: d in allowedDomains && d != Wildcard && HasSuffix(origin, d)
  }

  /** The origin decision StandardAllowOriginFunc's closure makes. */
  predicate AllowsOrigin(allowHTTP: bool, allowedDomains: seq<string>, origin: string) {
    if Wildcard in allowedDomains then allowHTTP || HasPrefix(origin, HttpsScheme)
    else (allowHTTP || HasPrefix(origin, HttpsScheme)) && MatchesSuffix(allowedDomains, origin)
  }

  /**
   * StandardAllowOriginFunc(allowHTTP, allowedDomains)(origin): the wildcard
   * accepts everything (only https origins when HTTP is refused) and makes the
   * suffixes irrelevant; otherwise a refused scheme loses and a suffix match wins.
   */
  method StandardAllowOriginFunc(allowHTTP: bool, allowedDomains: seq<string>, origin: string) returns (allowed: bool)
    ensures allowed == AllowsOrigin(allowHTTP, allowedDomains, origin)
    ensures Wildcard in allowedDomains && allowHTTP ==> allowed
    ensures Wildcard in allowedDomains && !allowHTTP ==> (allowed <==> HasPrefix(origin, HttpsScheme))
    ensures Wildcard !in allowedDomains && !allowHTTP && !HasPrefix(origin, HttpsScheme) ==> !allowed
    ensures Wildcard !in allowedDomains && (allowHTTP || HasPrefix(origin, HttpsScheme)) ==>
              (allowed <==> exists d :: d in allowedDomains && HasSuffix(origin, d))
    ensures allowedDomains == [] ==> !allowed
  {
    for i := 0 to |allowedDomains|
      invariant forall j :: 0 <= j < i ==> allowedDomains[j] != Wildcard
    {
      if allowedDomains[i] == Wildcard {
        if allowHTTP {
          return true;
        }
        return HasPrefix(origin, HttpsScheme);
      }
    }
    if !allowHTTP && !HasPrefix(origin, HttpsScheme) {
      return false;
    }
    for i := 0 to |allowedDomains|
      invariant forall j :: 0 <= j < i ==> !(allowedDomains[j] != Wildcard && HasSuffix(origin, allowedDomains[j]))
    {
      if allowedDomains[i] != Wildcard && HasSuffix(origin, allowedDomains[i]) {
        return true;
      }
    }
    return false;
  }
}

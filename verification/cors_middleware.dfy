/**
 * cors.go: the origin rules of the HTTP CORS middleware and the defaulting of
 * its options before they are handed to the CORS library. Unlike cors/cors.go
 * this validator knows no wildcard: "*" is an ordinary suffix.
 */
module CorsMiddleware {
  import opened Base
  import opened Strings
  import Cors

  /** DefaultCORSDomains: the default allowed domain suffixes. */
  const DefaultCORSDomains: seq<string> := [".infomaker.io", ".navigacloud.com"]

  const MethodPost := "POST"

  /** The decision standardAllowOriginFunc's closure makes. */
  predicate SuffixAllows(allowHTTP: bool, allowedDomains: seq<string>, origin: string) {
    (allowHTTP || HasPrefix(origin, Cors.HttpsScheme)) && exists d :: d in allowedDomains && HasSuffix(origin, d)
  }

  /**
   * standardAllowOriginFunc(allowHTTP, allowedDomains)(origin): a non-https
   * origin is refused unless HTTP is allowed; otherwise the origin is allowed
   * exactly when it ends with a listed suffix.
   */
  method StandardAllowOriginFunc(allowHTTP: bool, allowedDomains: seq<string>, origin: string) returns (allowed: bool)
    ensures allowed == SuffixAllows(allowHTTP, allowedDomains, origin)
    ensures !allowHTTP && !HasPrefix(origin, Cors.HttpsScheme) ==> !allowed
    ensures allowHTTP || HasPrefix(origin, Cors.HttpsScheme) ==>
              (allowed <==> exists i :: 0 <= i < |allowedDomains| && HasSuffix(origin, allowedDomains[i]))
  {
    if !allowHTTP && !HasPrefix(origin, Cors.HttpsScheme) {
      return false;
    }
    for i := 0 to |allowedDomains|
      invariant forall j :: 0 <= j < i ==> !HasSuffix(origin, allowedDomains[j])
    {
      if HasSuffix(origin, allowedDomains[i]) {
        return true;
      }
    }
    return false;
  }

  /** Without a "*" entry the two validators agree on every origin. */
  lemma ValidatorsAgreeWithoutWildcard(allowHTTP: bool, allowedDomains: seq<string>, origin: string)
    requires Cors.Wildcard !in allowedDomains
    ensures SuffixAllows(allowHTTP, allowedDomains, origin) == Cors.AllowsOrigin(allowHTTP, allowedDomains, origin)
  {
  }

  /** Here "*" is a literal suffix: it admits no ordinary origin, though cors/cors.go admits them all. */
  lemma WildcardIsLiteral(origin: string)
    requires origin != [] && origin[|origin| - 1] != '*'
    ensures !SuffixAllows(true, [Cors.Wildcard], origin)
    ensures Cors.AllowsOrigin(true, [Cors.Wildcard], origin)
  {
  }

  /** Some validator approves the origin. */
  predicate AnyApproves(funcs: seq<string -> bool>, origin: string) {
    exists i :: 0 <= i < |funcs| && funcs[i](origin)
  }

  /** anyOfAllowOriginFuncs(funcs...)(origin): true exactly when one of the validators is. */
  method AnyOfAllowOriginFuncs(funcs: seq<string -> bool>, origin: string) returns (approved: bool)
    ensures approved <==> AnyApproves(funcs, origin)
    ensures funcs == [] ==> !approved
  {
    for i := 0 to |funcs|
      invariant forall j :: 0 <= j < i ==> !funcs[j](origin)
    {
      if funcs[i](origin) {
        return true;
      }
    }
    return false;
  }

  /** The part of cors.Options the middleware sets: allowed methods and an optional origin validator. */
  datatype CustomOptions = CustomOptions(allowedMethods: seq<string>, allowOriginFunc: Option<string -> bool>)

  /** CORSOptions */
  datatype CORSOptions = CORSOptions(allowHTTP: bool, allowedDomains: seq<string>, custom: CustomOptions)

  /** The options NewCORSMiddleware hands to the CORS library. */
  datatype CoreOptions = CoreOptions(allowedMethods: seq<string>, allowOriginFunc: string -> bool)

  /** The domains the middleware validates against: the given ones, or the defaults when none are given. */
  function EffectiveDomains(opts: CORSOptions): (domains: seq<string>)
    ensures opts.allowedDomains == [] ==> domains == DefaultCORSDomains
    ensures opts.allowedDomains != [] ==> domains == opts.allowedDomains
  {
    if |opts.allowedDomains| == 0 then DefaultCORSDomains else opts.allowedDomains
  }

  /**
   * NewCORSMiddleware's option defaulting: POST is the only method when none is
   * given, and a custom origin validator is OR-combined with the standard one
   * over the effective domains, never replacing it.
   */
  function NewCORSMiddleware(opts: CORSOptions): (r: CoreOptions)
    ensures opts.custom.allowedMethods == [] ==> r.allowedMethods == [MethodPost]
    ensures opts.custom.allowedMethods != [] ==> r.allowedMethods == opts.custom.allowedMethods
    ensures forall origin :: SuffixAllows(opts.allowHTTP, EffectiveDomains(opts), origin) ==> r.allowOriginFunc(origin)
    ensures opts.custom.allowOriginFunc.None? ==>
              forall origin :: r.allowOriginFunc(origin) == SuffixAllows(opts.allowHTTP, EffectiveDomains(opts), origin)
    ensures opts.custom.allowOriginFunc.Some? ==>
              forall origin :: r.allowOriginFunc(origin) ==
                (opts.custom.allowOriginFunc.value(origin) || SuffixAllows(opts.allowHTTP, EffectiveDomains(opts), origin))
  {
    var domains := EffectiveDomains(opts);
    var methods := if |opts.custom.allowedMethods| == 0 then [MethodPost] else opts.custom.allowedMethods;
    var standard := (origin: string) => SuffixAllows(opts.allowHTTP, domains, origin);
    if opts.custom.allowOriginFunc.Some? then
      var custom := opts.custom.allowOriginFunc.value;
      AnyOfTwo(custom, standard);
      CoreOptions(methods, (origin: string) => AnyApproves([custom, standard], origin))
    else
      CoreOptions(methods, standard)
  }

  /** Combining two validators is their disjunction. */
  lemma AnyOfTwo(f: string -> bool, g: string -> bool)
    ensures forall origin :: AnyApproves([f, g], origin) <==> f(origin) || g(origin)
  {
    forall origin ensures AnyApproves([f, g], origin) <==> f(origin) || g(origin) {
      if f(origin) {
        assert [f, g][0](origin);
      } else if g(origin) {
        assert [f, g][1](origin);
      }
    }
  }
}

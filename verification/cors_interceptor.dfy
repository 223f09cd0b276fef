/**
 * cors/interceptor.go: the Connect CORS interceptor. It forwards every call
 * once; when the call carries an allowed Origin it adds four CORS headers to
 * the response, or to the metadata of a Connect error.
 */
module CorsInterceptor {
  import opened Base
  import opened ConnectErrors
  import opened Rpc
  import Cors

  const OriginHeader := "Origin"
  const AllowOriginHeader := "Access-Control-Allow-Origin"
  const AllowMethodsHeader := "Access-Control-Allow-Methods"
  const AllowHeadersHeader := "Access-Control-Allow-Headers"
  const AllowCredentialsHeader := "Access-Control-Allow-Credentials"
  const AllowedMethods := "POST, GET, OPTIONS"
  const AllowedHeaders := "Content-Type, Accept, Connect-Protocol-Version, Authorization, X-Requested-With"

  /** The four header names the interceptor sets. */
  const CorsHeaderNames: set<string> := {AllowOriginHeader, AllowMethodsHeader, AllowHeadersHeader, AllowCredentialsHeader}

  /** The four Set calls on a header map (a response header or an error's metadata). */
  function WithCorsHeaders(h: Header, origin: string): (r: Header)
    ensures r.Keys == h.Keys + CorsHeaderNames
    ensures r[AllowOriginHeader] == origin
    ensures r[AllowMethodsHeader] == AllowedMethods
    ensures r[AllowHeadersHeader] == AllowedHeaders
    ensures r[AllowCredentialsHeader] == "true"
    ensures forall k :: k in h && k !in CorsHeaderNames ==> r[k] == h[k]
  {
    h[AllowOriginHeader := origin][AllowMethodsHeader := AllowedMethods]
     [AllowHeadersHeader := AllowedHeaders][AllowCredentialsHeader := "true"]
  }

  /**
   * Interceptor(allowedOrigins, allowHTTP) applied to a call whose rest of the
   * chain produced `next`. Without an Origin, or with one the validator refuses,
   * `next` is returned untouched. Otherwise a response gets the CORS headers;
   * an error is returned as it is, except that the Connect error errors.As
   * finds on its chain (the error itself or one it wraps) gets them in its
   * metadata, keeping its code and message; an error with no Connect error on
   * its chain passes through.
   */
  function Intercept(allowedOrigins: seq<string>, allowHTTP: bool, req: Request, next: Outcome): (r: Outcome)
    ensures var origin := Get(req.header, OriginHeader);
      origin == "" || !Cors.AllowsOrigin(allowHTTP, allowedOrigins, origin) ==> r == next
    ensures r.Success? <==> next.Success?
    ensures r.Success? ==> r.value.message == next.value.message
    ensures r.Failure? ==> Text(r.error) == Text(next.error) && r.error.Connect? == next.error.Connect?
    ensures r.Failure? ==> |UnwrapChain(r.error)| == |UnwrapChain(next.error)|
    ensures next.Failure? && AsConnect(next.error).None? ==> r == next
    ensures var origin := Get(req.header, OriginHeader);
      origin != "" && Cors.AllowsOrigin(allowHTTP, allowedOrigins, origin) ==>
        && (next.Success? ==> r.value.header == WithCorsHeaders(next.value.header, origin))
        && (next.Failure? && next.error.Connect? ==> r.error.meta == WithCorsHeaders(next.error.meta, origin))
        && (next.Failure? && AsConnect(next.error).Some? ==>
              var found := AsConnect(next.error).value;
              AsConnect(r.error) == Some(found.(meta := WithCorsHeaders(found.meta, origin))))
  {
    var origin := Get(req.header, OriginHeader);
    if origin == "" then next
    else if !Cors.AllowsOrigin(allowHTTP, allowedOrigins, origin) then next
    else
      match next
      case Failure(err) =>
        if AsConnect(err).Some? then Failure(UpdateConnectMeta(err, h => WithCorsHeaders(h, origin))) else next
      case Success(resp) =>
        Success(resp.(header := WithCorsHeaders(resp.header, origin)))
  }

  /** An allowed origin's CORS headers reach a Connect error wrapped by fmt.Errorf("…: %w", err). */
  lemma WrappedConnectErrorGetsHeaders(allowedOrigins: seq<string>, allowHTTP: bool, req: Request,
                                       msg: string, code: Code, inner: string)
    requires Get(req.header, OriginHeader) != ""
    requires Cors.AllowsOrigin(allowHTTP, allowedOrigins, Get(req.header, OriginHeader))
    ensures var r := Intercept(allowedOrigins, allowHTTP, req, Failure(Wrapped(msg, NewError(code, inner))));
      && r == Failure(Wrapped(msg, Connect(code, inner, WithCorsHeaders(map[], Get(req.header, OriginHeader)))))
  {
  }
}

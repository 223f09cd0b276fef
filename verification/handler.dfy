/**
 * handler.go and middleware.go (package didenault): an App of registrations
 * and middlewares. Handle wraps every registered handler in all middlewares,
 * the first one outermost, then routes each event to the first registration
 * whose path is a case-sensitive prefix of the event path. WithCORS echoes an
 * exactly listed origin and answers OPTIONS itself.
 */
module Didenault {
  import opened Base
  import opened Strings
  import opened Rpc
  import opened Http
  import opened CorsInterceptor
  import Dindenault

  /** A Middleware: WithCORS, or one that only observes the request (WithLogging, WithXRay, WithOpenTelemetry). */
  datatype Middleware = CORS(allowedOrigins: seq<string>) | Observe(name: string)

  /** An http.Handler: a service handler, or a middleware wrapped around the next handler. */
  datatype HttpHandler = Service(name: string) | Wrapped(middleware: Middleware, next: HttpHandler)

  /** m[0](m[1](...m[n-1](h))): the first middleware is the outermost. */
  function Compose(middlewares: seq<Middleware>, h: HttpHandler): HttpHandler
    decreases |middlewares|
  {
    if middlewares == [] then h else Wrapped(middlewares[0], Compose(middlewares[1..], h))
  }

  /** The middlewares a request passes through, outermost first, before reaching a service. */
  function Layers(h: HttpHandler): seq<Middleware> {
    match h
    case Service(_) => []
    case Wrapped(m, next) => [m] + Layers(next)
  }

  /** The service at the bottom of a handler. */
  function Core(h: HttpHandler): string {
    match h
    case Service(name) => name
    case Wrapped(_, next) => Core(next)
  }

  /** Composition puts the middlewares in list order in front of the handler's own, and keeps its service. */
  lemma {:induction false} ComposeLayers(middlewares: seq<Middleware>, h: HttpHandler)
    ensures Layers(Compose(middlewares, h)) == middlewares + Layers(h)
    ensures Core(Compose(middlewares, h)) == Core(h)
    decreases |middlewares|
  {
    if middlewares != [] {
      ComposeLayers(middlewares[1..], h);
      assert middlewares == [middlewares[0]] + middlewares[1..];
    }
  }

  /** Composing a concatenation is composing the parts, the first list outside. */
  lemma {:induction false} ComposeAppend(a: seq<Middleware>, b: seq<Middleware>, h: HttpHandler)
    ensures Compose(a + b, h) == Compose(a, Compose(b, h))
    decreases |a|
  {
    if a == [] {
      assert a + b == b;
    } else {
      assert (a + b)[1..] == a[1..] + b;
      ComposeAppend(a[1..], b, h);
    }
  }

  /** The reverse loop of Handle (handler.go:65-69) over one handler. */
  method ApplyMiddlewares(middlewares: seq<Middleware>, h: HttpHandler) returns (handler: HttpHandler)
    ensures handler == Compose(middlewares, h)
    ensures Layers(handler) == middlewares + Layers(h)
  {
    handler := h;
    var j := |middlewares|;
    while j > 0
      invariant 0 <= j <= |middlewares|
      invariant handler == Compose(middlewares[j..], h)
      decreases j
    {
      j := j - 1;
      assert middlewares[j..][1..] == middlewares[j + 1..];
      handler := Wrapped(middlewares[j], handler);
    }
    ComposeLayers(middlewares, h);
  }

  /** Registration{Path, Handler} */
  datatype Registration = Registration(path: string, handler: HttpHandler)

  /** The options of this App. */
  datatype AppOption = WithService(path: string, handler: HttpHandler) | WithMiddleware(middlewares: seq<Middleware>)

  /** The fields of this App. */
  datatype AppState = AppState(registrations: seq<Registration>, middlewares: seq<Middleware>)

  /** What one option does: WithService appends a registration, WithMiddleware appends middlewares. */
  function ApplyOption(s: AppState, opt: AppOption): (r: AppState)
    ensures opt.WithService? ==> r == AppState(s.registrations + [Registration(opt.path, opt.handler)], s.middlewares)
    ensures opt.WithMiddleware? ==> r == AppState(s.registrations, s.middlewares + opt.middlewares)
  {
    match opt
    case WithService(path, handler) => s.(registrations := s.registrations + [Registration(path, handler)])
    case WithMiddleware(ms) => s.(middlewares := s.middlewares + ms)
  }

  /** The App after applying `options` in order. */
  function AppAfter(options: seq<AppOption>): AppState
    decreases |options|
  {
    if options == [] then AppState([], [])
    else ApplyOption(AppAfter(options[..|options| - 1]), options[|options| - 1])
  }

  /** The registrations the options name, in option order. */
  function ServicesOf(options: seq<AppOption>): seq<Registration>
    decreases |options|
  {
    if options == [] then []
    else
      var last := options[|options| - 1];
      ServicesOf(options[..|options| - 1]) + (if last.WithService? then [Registration(last.path, last.handler)] else [])
  }

  /** The middlewares the options name, in option order. */
  function MiddlewaresOf(options: seq<AppOption>): seq<Middleware>
    decreases |options|
  {
    if options == [] then []
    else
      var last := options[|options| - 1];
      MiddlewaresOf(options[..|options| - 1]) + (if last.WithMiddleware? then last.middlewares else [])
  }

  /** New keeps both kinds of options in order, independently of how they interleave. */
  lemma {:induction false} OptionsKeepOrder(options: seq<AppOption>)
    ensures AppAfter(options) == AppState(ServicesOf(options), MiddlewaresOf(options))
    decreases |options|
  {
    if options != [] {
      OptionsKeepOrder(options[..|options| - 1]);
    }
  }

  /** The registrations after Handle: every handler wrapped in all middlewares, paths and order kept. */
  function Wrap(regs: seq<Registration>, middlewares: seq<Middleware>): (r: seq<Registration>)
    ensures |r| == |regs|
    ensures forall i :: 0 <= i < |r| ==> r[i] == Registration(regs[i].path, Compose(middlewares, regs[i].handler))
  {
    seq(|regs|, i requires 0 <= i < |regs| => Registration(regs[i].path, Compose(middlewares, regs[i].handler)))
  }

  /** Handle wraps again on every call: with any middleware, a second call adds a second layer of each. */
  lemma HandleWrapsAgain(regs: seq<Registration>, middlewares: seq<Middleware>, i: nat)
    requires i < |regs|
    ensures Layers(Wrap(Wrap(regs, middlewares), middlewares)[i].handler) ==
              middlewares + middlewares + Layers(regs[i].handler)
  {
    ComposeLayers(middlewares, regs[i].handler);
    ComposeLayers(middlewares, Compose(middlewares, regs[i].handler));
  }

  // ---------------------------------------------------------------------------
  // Serving

  const CorsPreflightHeaders := "Content-Type"

  /** WithCORS: an exact-match origin is echoed in Allow-Origin; OPTIONS is answered here with 200. */
  function CorsServed(allowedOrigins: seq<string>, req: HttpRequest, s: WriterState): WriterState {
    var origin := Origin(req);
    var s1 := if origin in allowedOrigins then s.(header := s.header[AllowOriginHeader := origin]) else s;
    s1.(header := s1.header[AllowMethodsHeader := AllowedMethods][AllowHeadersHeader := CorsPreflightHeaders],
        status := 200)
  }

  /** What serving `req` with `h` leaves in a writer in state `s`. */
  function Served(h: HttpHandler, req: HttpRequest, s: WriterState): WriterState
    decreases h
  {
    match h
    case Service(name) => s.(served := s.served + [name])
    case Wrapped(Observe(_), next) => Served(next, req, s)
    case Wrapped(CORS(origins), next) =>
      if req.httpMethod == MethodOptions then CorsServed(origins, req, s)
      else
        var origin := Origin(req);
        Served(next, req, if origin in origins then s.(header := s.header[AllowOriginHeader := origin]) else s)
  }

  /**
   * The WithCORS middleware: Allow-Origin is set exactly when the origin equals
   * a listed entry; OPTIONS gets 200 with the two preflight headers and never
   * reaches the wrapped handler; any other method is passed on to it.
   */
  lemma CorsMiddlewareDecision(origins: seq<string>, next: HttpHandler, req: HttpRequest, s: WriterState)
    ensures var origin := Origin(req);
      var r := Served(Wrapped(CORS(origins), next), req, s);
      && (req.httpMethod == MethodOptions ==>
            && r.status == 200 && r.served == s.served && r.body == s.body
            && r.header[AllowMethodsHeader] == "POST, GET, OPTIONS"
            && r.header[AllowHeadersHeader] == "Content-Type"
            && (origin in origins ==> r.header[AllowOriginHeader] == origin)
            && (origin !in origins ==> (AllowOriginHeader in r.header <==> AllowOriginHeader in s.header)))
      && (req.httpMethod != MethodOptions ==>
            r == Served(next, req, if origin in origins then s.(header := s.header[AllowOriginHeader := origin]) else s))
  {
  }

  /** A request passes every observing middleware and reaches the service unless a WithCORS layer sees OPTIONS. */
  lemma {:induction false} ServiceReached(h: HttpHandler, req: HttpRequest, s: WriterState)
    requires req.httpMethod != MethodOptions
    ensures Served(h, req, s).served == s.served + [Core(h)]
    ensures Served(h, req, s).status == s.status && Served(h, req, s).body == s.body
    decreases h
  {
    match h
    case Service(_) =>
    case Wrapped(m, next) =>
      var origin := Origin(req);
      if m.CORS? && origin in m.allowedOrigins {
        ServiceReached(next, req, s.(header := s.header[AllowOriginHeader := origin]));
      } else {
        ServiceReached(next, req, s);
      }
  }

  /** The WithCORS middleware on a writer (middleware.go:62-81). */
  method ServeCors(origins: seq<string>, next: HttpHandler, w: ResponseWriter, req: HttpRequest)
    modifies w
    ensures w.State() == Served(Wrapped(CORS(origins), next), req, old(w.State()))
    decreases Wrapped(CORS(origins), next), 0
  {
    var origin := Origin(req);
    var i := 0;
    while i < |origins|
      invariant 0 <= i <= |origins|
      invariant forall j :: 0 <= j < i ==> origins[j] != origin
      invariant w.State() == old(w.State())
    {
      if origin == origins[i] {
        w.Set(AllowOriginHeader, origin);
        break;
      }
      i := i + 1;
    }
    if req.httpMethod == MethodOptions {
      w.Set(AllowMethodsHeader, AllowedMethods);
      w.Set(AllowHeadersHeader, CorsPreflightHeaders);
      w.WriteHeader(200);
      return;
    }
    Serve(next, w, req);
  }

  /** handler.ServeHTTP(w, r) */
  method Serve(h: HttpHandler, w: ResponseWriter, req: HttpRequest)
    modifies w
    ensures w.State() == Served(h, req, old(w.State()))
    decreases h, 1
  {
    match h
    case Service(name) =>
      w.Delegate(name);
    case Wrapped(Observe(_), next) =>
      Serve(next, w, req);
    case Wrapped(CORS(origins), next) =>
      ServeCors(origins, next, w, req);
  }

  /** The response of the returned handler function; `served` names the services that wrote it. */
  datatype LambdaResponse = LambdaResponse(statusCode: int, headers: Header, body: string, served: seq<string>)

  /** The first registration whose path is a case-sensitive prefix of the event path, |regs| when none is. */
  function FirstRoute(regs: seq<Registration>, path: string): (k: nat)
    ensures k <= |regs|
    ensures k < |regs| ==> HasPrefix(path, regs[k].path)
    ensures forall j :: 0 <= j < k ==> !HasPrefix(path, regs[j].path)
    decreases |regs|
  {
    if regs == [] then 0
    else if HasPrefix(path, regs[0].path) then 0
    else 1 + FirstRoute(regs[1..], path)
  }

  /** The answer to a converted request: the first matching handler's response, else 404 "Not found". */
  function Respond(regs: seq<Registration>, req: HttpRequest, path: string): LambdaResponse {
    var k := FirstRoute(regs, path);
    if k == |regs| then LambdaResponse(404, map[], "Not found", [])
    else
      var s := Served(regs[k].handler, req, WriterState(map[], 0, "", []));
      LambdaResponse(s.status, s.header, s.body, s.served)
  }

  /**
   * Where the two routers part ways: a path that matches a registered prefix
   * only up to case is routed there by the Connect App's case-insensitive
   * pathMatches, but passed over by this router.
   */
  lemma RoutingIsCaseSensitive(regs: seq<Registration>, path: string, k: nat)
    requires k < |regs| && !HasPrefix(path, regs[k].path)
    requires HasPrefix(ToLower(path), ToLower(regs[k].path))
    ensures Dindenault.PathMatches(path, regs[k].path)
    ensures FirstRoute(regs, path) != k
  {
  }

  /** "/svc/Call" is such a path for a registration at "/Svc/". */
  lemma CaseOnlyMismatch()
    ensures !HasPrefix("/svc/Call", "/Svc/") && HasPrefix(ToLower("/svc/Call"), ToLower("/Svc/"))
  {
    assert "/svc/Call"[1] != "/Svc/"[1];
    assert ToLower("/Svc/") == "/svc/";
    assert ToLower("/svc/Call")[..5] == "/svc/";
  }

  /** The App of handler.go. */
  class App {
    var registrations: seq<Registration>
    var middlewares: seq<Middleware>

    function State(): AppState
      reads this
    {
      AppState(registrations, middlewares)
    }

    /** New(logger, opts...): the options applied in order. */
    constructor New(options: seq<AppOption>)
      ensures State() == AppAfter(options)
    {
      registrations := [];
      middlewares := [];
      new;
      for i := 0 to |options|
        invariant State() == AppAfter(options[..i])
      {
        assert options[..i + 1][..i] == options[..i];
        match options[i]
        case WithService(path, handler) =>
          registrations := registrations + [Registration(path, handler)];
        case WithMiddleware(ms) =>
          middlewares := middlewares + ms;
      }
      assert options[..|options|] == options;
    }

    /** The first half of Handle: every registered handler wrapped in the middlewares, in place. */
    method Handle()
      modifies this
      ensures registrations == Wrap(old(registrations), middlewares)
      ensures middlewares == old(middlewares)
    {
      ghost var original := registrations;
      for i := 0 to |registrations|
        invariant |registrations| == |original|
        invariant registrations[..i] == Wrap(original, middlewares)[..i]
        invariant registrations[i..] == original[i..]
        invariant middlewares == old(middlewares)
      {
        var reg := registrations[i];
        assert reg == original[i] by {
          assert registrations[i..][0] == original[i..][0];
        }
        var handler := ApplyMiddlewares(middlewares, reg.handler);
        ghost var before := registrations;
        registrations := registrations[i := Registration(reg.path, handler)];
        assert registrations[i + 1..] == before[i + 1..];
        assert before[i + 1..] == before[i..][1..];
      }
    }

    /** The routing loop of the returned handler function (handler.go:97-111). */
    method Route(req: HttpRequest, path: string) returns (resp: LambdaResponse)
      ensures resp == Respond(registrations, req, path)
      ensures FirstRoute(registrations, path) == |registrations| ==> resp == LambdaResponse(404, map[], "Not found", [])
    {
      var w := new ResponseWriter();
      for i := 0 to |registrations|
        invariant forall j :: 0 <= j < i ==> !HasPrefix(path, registrations[j].path)
      {
        var reg := registrations[i];
        if HasPrefix(path, reg.path) {
          FirstRouteIs(registrations, path, i);
          Serve(reg.handler, w, req);
          return LambdaResponse(w.status, w.header, w.body, w.served);
        }
      }
      FirstRouteIs(registrations, path, |registrations|);
      return LambdaResponse(404, map[], "Not found", []);
    }

    /**
     * The returned handler function as written: the request is read for the
     * debug log before the conversion error is checked, so a failed conversion
     * (which yields a nil request) panics; None stands for the panic.
     */
    method HandleEventAsWritten(conversion: Result<HttpRequest, string>, path: string) returns (resp: Option<LambdaResponse>)
      ensures conversion.Failure? ==> resp.None?
      ensures conversion.Success? ==> resp == Some(Respond(registrations, conversion.value, path))
    {
      if conversion.Failure? {
        return None;
      }
      var r := Route(conversion.value, path);
      return Some(r);
    }

    /**
     * The returned handler function with the error checked before the request
     * is used: a failed conversion gets 500 "Failed to create request", any
     * other event is routed.
     */
    method HandleEvent(conversion: Result<HttpRequest, string>, path: string) returns (resp: LambdaResponse)
      ensures conversion.Failure? ==> resp == LambdaResponse(500, map[], "Failed to create request", [])
      ensures conversion.Success? ==> resp == Respond(registrations, conversion.value, path)
    {
      if conversion.Failure? {
        return LambdaResponse(500, map[], "Failed to create request", []);
      }
      resp := Route(conversion.value, path);
    }
  }

  /** The routing loop stops at FirstRoute. */
  lemma FirstRouteIs(regs: seq<Registration>, path: string, i: nat)
    requires i <= |regs|
    requires forall j :: 0 <= j < i ==> !HasPrefix(path, regs[j].path)
    requires i < |regs| ==> HasPrefix(path, regs[i].path)
    ensures FirstRoute(regs, path) == i
  {
  }
}

/**
 * app.go and the App options of connect.go: an App collects registrations
 * (path prefix and handler) and global interceptors through options applied
 * in order; before serving it installs the global interceptors on every
 * handler that accepts them; a request goes to the first registration whose
 * path is a case-insensitive prefix of the request path, or gets a 404.
 */
module Dindenault {
  import opened Base
  import opened Strings
  import opened Rpc
  import opened AuthContext
  import opened Chain
  import opened Http
  import opened ConnectSetup
  import Cors
  import PathPerms
  import Telemetry

  /** Registration{Path, Handler} */
  datatype Registration = Registration(path: string, handler: Handler)

  /** telemetry.Options as the telemetry options set them. */
  datatype TelemetrySettings = TelemetrySettings(
    metricNamespace: string,
    organizationFn: Option<Context -> string>,
    metricAttributes: seq<Telemetry.Attribute>)

  /** The options of an App (connect.go); WithConnectService is WithService. */
  datatype AppOption =
    | WithInterceptors(interceptors: seq<Interceptor>)
    | WithService(path: string, handler: Handler)
    | WithSecureService(path: string, handler: Handler, permissions: seq<string>)
    | WithPathPermissionService(path: string, handler: Handler, configs: seq<PathPerms.PathPermissionConfig>)
    | WithConnectRPCCORSGlobal(opts: Cors.Options)
    | WithCORSInterceptor(path: string, opts: Cors.Options)
    | WithConnectServiceCORS(path: string, handler: Handler, allowedOrigins: seq<string>, allowHTTP: bool)
    | WithTelemetry
    | WithTelemetryNamespace(namespace: string)
    | WithTelemetryOrganizationFunction(fn: Context -> string)
    | WithTelemetryAttributes(attrs: seq<Telemetry.Attribute>)

  /** The fields of an App. */
  datatype AppState = AppState(
    registrations: seq<Registration>,
    globalInterceptors: seq<Interceptor>,
    telemetryOptions: Option<TelemetrySettings>,
    bucketEventHandlers: seq<string>)

  /** What New starts from: no registrations, no interceptors, no telemetry options. */
  const InitialState := AppState([], [], None, [])

  /** The telemetry options, created empty when the App has none yet. */
  function TelemetryOrEmpty(s: AppState): TelemetrySettings {
    if s.telemetryOptions.Some? then s.telemetryOptions.value else TelemetrySettings("", None, [])
  }

  /** The option's registration, if it registers one. */
  function RegistrationOf(s: AppState, opt: AppOption): Option<Registration> {
    match opt
    case WithService(path, handler) => Some(Registration(path, handler))
    case WithSecureService(path, handler, permissions) => Some(Registration(path, SecureHandler(handler, permissions)))
    case WithPathPermissionService(path, handler, configs) => Some(Registration(path, PathPermission(handler, configs)))
    case WithConnectRPCCORSGlobal(o) =>
      Some(Registration("/", GlobalPreflight(Cors.WithDefaultDomains(o.allowedDomains), o.allowHTTP)))
    case WithCORSInterceptor(path, o) =>
      Some(Registration(path, HandleCORSPreflightWithOptions(Cors.Options(o.allowHTTP, Cors.WithDefaultDomains(o.allowedDomains)))))
    case WithConnectServiceCORS(path, handler, origins, allowHTTP) =>
      Some(Registration(path, CorsWrapper(handler, origins, allowHTTP)))
    case _ => None
  }

  /** The global interceptors the option appends. */
  function InterceptorsOf(opt: AppOption): seq<Interceptor> {
    match opt
    case WithInterceptors(list) => list
    case WithConnectRPCCORSGlobal(o) => [CorsHeaders(Cors.WithDefaultDomains(o.allowedDomains), o.allowHTTP)]
    case WithCORSInterceptor(_, o) => [CorsHeaders(Cors.WithDefaultDomains(o.allowedDomains), o.allowHTTP)]
    case WithTelemetry => [Observer(None)]
    case _ => []
  }

  /** The options that touch the telemetry options. */
  predicate SetsTelemetry(opt: AppOption) {
    opt.WithTelemetry? || opt.WithTelemetryNamespace? || opt.WithTelemetryOrganizationFunction? ||
    opt.WithTelemetryAttributes?
  }

  /** What one option does to an App. */
  function ApplyOption(s: AppState, opt: AppOption): (r: AppState)
    ensures r.registrations ==
              s.registrations + (if RegistrationOf(s, opt).Some? then [RegistrationOf(s, opt).value] else [])
    ensures r.globalInterceptors == s.globalInterceptors + InterceptorsOf(opt)
    ensures r.bucketEventHandlers == s.bucketEventHandlers
    ensures !SetsTelemetry(opt) ==> r.telemetryOptions == s.telemetryOptions
  {
    var regs := s.registrations + (if RegistrationOf(s, opt).Some? then [RegistrationOf(s, opt).value] else []);
    var globals := s.globalInterceptors + InterceptorsOf(opt);
    var telemetry :=
      match opt
      case WithTelemetry =>
        if s.telemetryOptions.Some? then s.telemetryOptions
        else Some(TelemetrySettings("Dindenault", Some(Telemetry.DefaultOrganizationFunction()), []))
      case WithTelemetryNamespace(ns) => Some(TelemetryOrEmpty(s).(metricNamespace := ns))
      case WithTelemetryOrganizationFunction(fn) => Some(TelemetryOrEmpty(s).(organizationFn := Some(fn)))
      case WithTelemetryAttributes(attrs) =>
        Some(TelemetryOrEmpty(s).(metricAttributes := TelemetryOrEmpty(s).metricAttributes + attrs))
      case _ => s.telemetryOptions;
    AppState(regs, globals, telemetry, s.bucketEventHandlers)
  }

  /** The App after applying `options` in order to the initial one. */
  function AppAfter(options: seq<AppOption>): AppState
    decreases |options|
  {
    if options == [] then InitialState
    else ApplyOption(AppAfter(options[..|options| - 1]), options[|options| - 1])
  }

  /**
   * Options only ever append: the registrations and global interceptors after
   * any prefix of the options are a prefix of the final ones, so an earlier
   * registration always comes first in routing.
   */
  lemma {:induction false} OptionsOnlyAppend(options: seq<AppOption>, k: nat)
    requires k <= |options|
    ensures AppAfter(options[..k]).registrations <= AppAfter(options).registrations
    ensures AppAfter(options[..k]).globalInterceptors <= AppAfter(options).globalInterceptors
    decreases |options|
  {
    if k < |options| {
      var prefix := options[..|options| - 1];
      assert options[..k] == prefix[..k];
      OptionsOnlyAppend(prefix, k);
    } else {
      assert options[..k] == options;
    }
  }

  /**
   * A service registered with WithService is found at the position its option
   * had among the registering options: the registration of option k is the
   * last one after options[..k+1].
   */
  lemma ServiceRegistered(options: seq<AppOption>, k: nat)
    requires k < |options| && options[k].WithService?
    ensures var regs := AppAfter(options).registrations;
      var n := |AppAfter(options[..k]).registrations|;
      n < |regs| && regs[n] == Registration(options[k].path, options[k].handler)
  {
    assert options[..k + 1][..k] == options[..k];
    OptionsOnlyAppend(options, k + 1);
    var before := AppAfter(options[..k]);
    var after := AppAfter(options[..k + 1]);
    assert after == ApplyOption(before, options[k]);
    var n := |before.registrations|;
    var reg := after.registrations[n];
    assert reg == RegistrationOf(before, options[k]).value;
  }

  // ---------------------------------------------------------------------------
  // Routing

  /** pathMatches: a case-insensitive prefix test. */
  predicate PathMatches(requestPath: string, servicePath: string) {
    HasPrefix(ToLower(requestPath), ToLower(servicePath))
  }

  /** The index of the first registration matching the path, |regs| when none does. */
  function FirstRoute(regs: seq<Registration>, path: string): (k: nat)
    ensures k <= |regs|
    ensures k < |regs| ==> PathMatches(path, regs[k].path)
    ensures forall j :: 0 <= j < k ==> !PathMatches(path, regs[j].path)
    decreases |regs|
  {
    if regs == [] then 0
    else if PathMatches(path, regs[0].path) then 0
    else 1 + FirstRoute(regs[1..], path)
  }

  /**
   * The catch-all "/" registration of WithConnectRPCCORSGlobal takes every
   * request path that starts with "/": no registration after it is ever chosen
   * for such a path.
   */
  lemma CatchAllShadowsLaterRegistrations(regs: seq<Registration>, k: nat, path: string)
    requires k < |regs| && regs[k].path == "/"
    requires HasPrefix(path, "/")
    ensures FirstRoute(regs, path) <= k
  {
    PrefixSurvivesLowering(path, "/");
    assert ToLower("/") == "/";
  }

  /** Path matching ignores ASCII case on both sides. */
  lemma PathMatchingIgnoresCase(requestPath: string, servicePath: string)
    ensures PathMatches(requestPath, servicePath) <==> PathMatches(ToLower(requestPath), servicePath)
    ensures PathMatches(requestPath, servicePath) <==> PathMatches(requestPath, ToLower(servicePath))
  {
    ToLowerIdempotent(requestPath);
    ToLowerIdempotent(servicePath);
  }

  /** The handlers after prepareHandlers: the global interceptors installed where accepted, paths and order kept. */
  function Prepared(regs: seq<Registration>, globals: seq<Interceptor>): (r: seq<Registration>)
    ensures |r| == |regs|
    ensures forall i :: 0 <= i < |r| ==>
              r[i] == Registration(regs[i].path, ApplyGlobalInterceptors(globals, regs[i].handler))
  {
    seq(|regs|, i requires 0 <= i < |regs| => Registration(regs[i].path, ApplyGlobalInterceptors(globals, regs[i].handler)))
  }

  /** Preparing twice (HandleALB and HandleAPIGateway each prepare) is preparing once. */
  lemma PreparedTwice(regs: seq<Registration>, globals: seq<Interceptor>)
    ensures Prepared(Prepared(regs, globals), globals) == Prepared(regs, globals)
  {
    forall i | 0 <= i < |regs|
      ensures Prepared(Prepared(regs, globals), globals)[i] == Prepared(regs, globals)[i]
    {
      ApplyGlobalInterceptorsIdempotent(globals, regs[i].handler);
    }
  }

  /**
   * Only plain handlers that accept interceptors receive the global ones: a
   * secure service with permissions, a path-permission service, a CORS wrapper
   * and the preflight handlers are served as registered, so a global
   * authentication interceptor never runs in front of them.
   */
  lemma GlobalsSkipBuiltHandlers(options: seq<AppOption>, k: nat)
    requires k < |options|
    requires || (options[k].WithSecureService? && |options[k].permissions| > 0 &&
                 AcceptsInterceptors(options[k].handler))
             || options[k].WithPathPermissionService?
             || options[k].WithConnectServiceCORS?
             || options[k].WithConnectRPCCORSGlobal?
             || options[k].WithCORSInterceptor?
    ensures var s := AppAfter(options);
      var n := |AppAfter(options[..k]).registrations|;
      n < |s.registrations| &&
      Prepared(s.registrations, s.globalInterceptors)[n] == s.registrations[n]
  {
    assert options[..k + 1][..k] == options[..k];
    OptionsOnlyAppend(options, k + 1);
    var before := AppAfter(options[..k]);
    var after := AppAfter(options[..k + 1]);
    assert after == ApplyOption(before, options[k]);
    var n := |before.registrations|;
    var reg := after.registrations[n];
    assert reg == RegistrationOf(before, options[k]).value;
    var s := AppAfter(options);
    assert s.registrations[n] == reg;
    assert ApplyGlobalInterceptors(s.globalInterceptors, reg.handler) == reg.handler;
  }

  /** The lambda.Response processRequest returns; `served` names the opaque services that wrote it. */
  datatype LambdaResponse = LambdaResponse(statusCode: int, headers: Header, body: string, served: seq<string>)

  /** The writer state of a fresh proxy response writer. */
  const FreshWriter := WriterState(map[], 0, "", [])

  /** processRequest's answer: the first matching handler's response, else 404 "Not found". */
  function Respond(regs: seq<Registration>, req: HttpRequest, path: string): LambdaResponse {
    var k := FirstRoute(regs, path);
    if k == |regs| then LambdaResponse(404, map[], "Not found", [])
    else
      var s := Served(regs[k].handler, req, FreshWriter);
      LambdaResponse(s.status, s.header, s.body, s.served)
  }

  /** A finished response is answered by at most one registration: one that matched. */
  lemma RespondUsesOneRoute(regs: seq<Registration>, req: HttpRequest, path: string)
    ensures var r := Respond(regs, req, path);
      (r.statusCode == 404 && r.body == "Not found" && r.served == []) ||
      exists k :: 0 <= k < |regs| && PathMatches(path, regs[k].path) &&
        (forall j :: 0 <= j < k ==> !PathMatches(path, regs[j].path)) &&
        r == LambdaResponse(Served(regs[k].handler, req, FreshWriter).status,
                            Served(regs[k].handler, req, FreshWriter).header,
                            Served(regs[k].handler, req, FreshWriter).body,
                            Served(regs[k].handler, req, FreshWriter).served)
  {
    var k := FirstRoute(regs, path);
    if k < |regs| {
      assert PathMatches(path, regs[k].path);
    }
  }

  /** A bucket event: the bucket name and object key of one S3 record. */
  datatype BucketEvent = BucketEvent(bucket: string, key: string)

  /** An S3 event record as HandleS3 reads it. */
  datatype S3Record = S3Record(bucketName: string, objectKey: string)

  /** The calls one record causes: the record's event to every handler, in order. */
  function EventCalls(handlers: seq<string>, event: BucketEvent): (calls: seq<(string, BucketEvent)>)
    ensures |calls| == |handlers|
    ensures forall j :: 0 <= j < |calls| ==> calls[j] == (handlers[j], event)
  {
    seq(|handlers|, j requires 0 <= j < |handlers| => (handlers[j], event))
  }

  /** Every (handler, event) call HandleS3 makes: records in order, and for each record every handler in order. */
  function S3Calls(records: seq<S3Record>, handlers: seq<string>): (calls: seq<(string, BucketEvent)>)
    decreases |records|
  {
    if records == [] then []
    else EventCalls(handlers, BucketEvent(records[0].bucketName, records[0].objectKey)) + S3Calls(records[1..], handlers)
  }

  /** The call order of HandleS3: call number i*|handlers|+j gives record i to handler j. */
  lemma {:induction false} S3CallsIndex(records: seq<S3Record>, handlers: seq<string>, i: nat, j: nat)
    requires i < |records| && j < |handlers|
    ensures |S3Calls(records, handlers)| == |records| * |handlers|
    ensures i * |handlers| + j < |S3Calls(records, handlers)|
    ensures S3Calls(records, handlers)[i * |handlers| + j] ==
              (handlers[j], BucketEvent(records[i].bucketName, records[i].objectKey))
    decreases |records|
  {
    var n := |handlers|;
    S3CallsLength(records[1..], handlers);
    if i > 0 {
      S3CallsIndex(records[1..], handlers, i - 1, j);
      assert (i - 1) * n + j + n == i * n + j;
      assert records[1..][i - 1] == records[i];
    }
    assert |records| * n == n + (|records| - 1) * n;
  }

  /** HandleS3 makes one call per record and handler. */
  lemma {:induction false} S3CallsLength(records: seq<S3Record>, handlers: seq<string>)
    ensures |S3Calls(records, handlers)| == |records| * |handlers|
    decreases |records|
  {
    if records != [] {
      S3CallsLength(records[1..], handlers);
      assert |records| * |handlers| == |handlers| + (|records| - 1) * |handlers|;
    }
  }

  /** The App. */
  class App {
    var registrations: seq<Registration>
    var globalInterceptors: seq<Interceptor>
    var telemetryOptions: Option<TelemetrySettings>
    var bucketEventHandlers: seq<string>

    function State(): AppState
      reads this
    {
      AppState(registrations, globalInterceptors, telemetryOptions, bucketEventHandlers)
    }

    /** New(logger, options...): the options applied in order. */
    constructor New(options: seq<AppOption>)
      ensures State() == AppAfter(options)
    {
      registrations := [];
      globalInterceptors := [];
      telemetryOptions := None;
      bucketEventHandlers := [];
      new;
      for i := 0 to |options|
        invariant State() == AppAfter(options[..i])
      {
        assert options[..i + 1][..i] == options[..i];
        Apply(options[i]);
      }
      assert options[..|options|] == options;
    }

    /** opt(app) */
    method Apply(opt: AppOption)
      modifies this
      ensures State() == ApplyOption(old(State()), opt)
    {
      match opt
      case WithInterceptors(list) =>
        globalInterceptors := globalInterceptors + list;
      case WithService(path, handler) =>
        registrations := registrations + [Registration(path, handler)];
      case WithSecureService(path, handler, permissions) =>
        var serviceHandler := handler;
        if |permissions| > 0 && AcceptsInterceptors(handler) {
          var gates := PermissionInterceptors(permissions);
          serviceHandler := Intercepted(handler.name, gates);
        }
        registrations := registrations + [Registration(path, serviceHandler)];
      case WithPathPermissionService(path, handler, configs) =>
        registrations := registrations + [Registration(path, PathPermission(handler, configs))];
      case WithConnectRPCCORSGlobal(o) =>
        var domains := o.allowedDomains;
        if |domains| == 0 {
          domains := Cors.DefaultDomains;
        }
        globalInterceptors := globalInterceptors + [CorsHeaders(domains, o.allowHTTP)];
        registrations := registrations + [Registration("/", GlobalPreflight(domains, o.allowHTTP))];
      case WithCORSInterceptor(path, o) =>
        var domains := o.allowedDomains;
        if |domains| == 0 {
          domains := Cors.DefaultDomains;
        }
        globalInterceptors := globalInterceptors + [CorsHeaders(domains, o.allowHTTP)];
        registrations := registrations + [Registration(path, HandleCORSPreflightWithOptions(Cors.Options(o.allowHTTP, domains)))];
      case WithConnectServiceCORS(path, handler, origins, allowHTTP) =>
        registrations := registrations + [Registration(path, CorsWrapper(handler, origins, allowHTTP))];
      case WithTelemetry =>
        if telemetryOptions.None? {
          telemetryOptions := Some(TelemetrySettings("Dindenault", Some(Telemetry.DefaultOrganizationFunction()), []));
        }
        globalInterceptors := globalInterceptors + [Observer(None)];
      case WithTelemetryNamespace(ns) =>
        var current := if telemetryOptions.Some? then telemetryOptions.value else TelemetrySettings("", None, []);
        telemetryOptions := Some(current.(metricNamespace := ns));
      case WithTelemetryOrganizationFunction(fn) =>
        var current := if telemetryOptions.Some? then telemetryOptions.value else TelemetrySettings("", None, []);
        telemetryOptions := Some(current.(organizationFn := Some(fn)));
      case WithTelemetryAttributes(attrs) =>
        var current := if telemetryOptions.Some? then telemetryOptions.value else TelemetrySettings("", None, []);
        telemetryOptions := Some(current.(metricAttributes := current.metricAttributes + attrs));
    }

    /** prepareHandlers: install the global interceptors on every registration, in place. */
    method PrepareHandlers()
      modifies this
      ensures registrations == Prepared(old(registrations), globalInterceptors)
      ensures globalInterceptors == old(globalInterceptors)
      ensures telemetryOptions == old(telemetryOptions) && bucketEventHandlers == old(bucketEventHandlers)
    {
      ghost var original := registrations;
      for i := 0 to |registrations|
        invariant |registrations| == |original|
        invariant registrations[..i] == Prepared(original, globalInterceptors)[..i]
        invariant registrations[i..] == original[i..]
        invariant globalInterceptors == old(globalInterceptors)
        invariant telemetryOptions == old(telemetryOptions) && bucketEventHandlers == old(bucketEventHandlers)
      {
        var reg := registrations[i];
        assert reg == original[i] by {
          assert registrations[i..][0] == original[i..][0];
        }
        var handler := ApplyGlobalInterceptors(globalInterceptors, reg.handler);
        ghost var before := registrations;
        registrations := registrations[i := Registration(reg.path, handler)];
        assert registrations[i + 1..] == before[i + 1..];
        assert before[i + 1..] == before[i..][1..];
      }
    }

    /**
     * processRequest: the first registration whose path matches serves the
     * request on a fresh writer, whose status, headers and body are the
     * response; without a match the answer is 404 "Not found".
     */
    method ProcessRequest(req: HttpRequest, path: string) returns (resp: LambdaResponse)
      ensures resp == Respond(registrations, req, path)
      ensures FirstRoute(registrations, path) == |registrations| ==> resp == LambdaResponse(404, map[], "Not found", [])
      ensures resp.statusCode != 404 ==> exists k :: 0 <= k < |registrations| && PathMatches(path, registrations[k].path)
    {
      var w := new ResponseWriter();
      for i := 0 to |registrations|
        invariant forall j :: 0 <= j < i ==> !PathMatches(path, registrations[j].path)
      {
        var reg := registrations[i];
        if PathMatches(path, reg.path) {
          FirstRouteIs(registrations, path, i);
          Serve(reg.handler, w, req);
          return LambdaResponse(w.status, w.header, w.body, w.served);
        }
      }
      FirstRouteIs(registrations, path, |registrations|);
      return LambdaResponse(404, map[], "Not found", []);
    }

    /**
     * The closure HandleS3 returns: every record goes to every bucket event
     * handler, in order; a handler's error is only logged, so the others still
     * run and the result is never an error.
     */
    method HandleS3(records: seq<S3Record>, handleEvent: (string, BucketEvent) -> Option<string>)
      returns (calls: seq<(string, BucketEvent)>, logged: seq<string>, err: Option<string>)
      ensures calls == S3Calls(records, bucketEventHandlers)
      ensures |logged| <= |calls|
      ensures err == None
    {
      var handlers := bucketEventHandlers;
      calls := [];
      logged := [];
      for i := 0 to |records|
        invariant calls + S3Calls(records[i..], handlers) == S3Calls(records, handlers)
        invariant |logged| <= |calls|
      {
        var event := BucketEvent(records[i].bucketName, records[i].objectKey);
        var made, failures := CallHandlers(handlers, event, handleEvent);
        assert records[i..][1..] == records[i + 1..];
        calls := calls + made;
        logged := logged + failures;
      }
      assert records[|records|..] == [];
      err := None;
    }
  }

  /** The inner loop of HandleS3: one record's event to every handler, logging each handler's error. */
  method CallHandlers(handlers: seq<string>, event: BucketEvent, handleEvent: (string, BucketEvent) -> Option<string>)
    returns (calls: seq<(string, BucketEvent)>, logged: seq<string>)
    ensures calls == EventCalls(handlers, event)
    ensures |logged| <= |calls|
  {
    calls := [];
    logged := [];
    for j := 0 to |handlers|
      invariant calls == EventCalls(handlers[..j], event)
      invariant |logged| <= |calls|
    {
      var failure := handleEvent(handlers[j], event);
      if failure.Some? {
        logged := logged + [failure.value];
      }
      assert handlers[..j + 1][..j] == handlers[..j];
      calls := calls + [(handlers[j], event)];
    }
    assert handlers[..|handlers|] == handlers;
  }

  /** The loop search in processRequest stops at FirstRoute. */
  lemma FirstRouteIs(regs: seq<Registration>, path: string, i: nat)
    requires i <= |regs|
    requires forall j :: 0 <= j < i ==> !PathMatches(path, regs[j].path)
    requires i < |regs| ==> PathMatches(path, regs[i].path)
    ensures FirstRoute(regs, path) == i
  {
  }
}

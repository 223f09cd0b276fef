/**
 * connect.go: the HTTP handlers the package builds around Connect services
 * (interceptor installation, CORS preflight handlers, the CORS wrapper) and
 * how each of them serves a request, plus NewConnectHandler and its options.
 *
 * A handler is a value describing what was built; Serve runs it against a
 * ResponseWriter. A Connect service handler is opaque: serving it only logs
 * its name on the writer, and its interceptor chain is the one RunChain runs.
 */
module ConnectSetup {
  import opened Base
  import opened Strings
  import opened ConnectErrors
  import opened Rpc
  import opened AuthContext
  import opened Claims
  import opened NavigaConnect
  import opened Chain
  import opened Http
  import opened MapCollect
  import opened CorsInterceptor
  import Cors
  import PathPerms

  /**
   * http.Handler values the core builds. `Service` is a handler it is given
   * (acceptsInterceptors: it implements ConnectHandlerWithInterceptor);
   * `Intercepted` is what such a handler's WithInterceptors returns.
   */
  datatype Handler =
    | Service(name: string, acceptsInterceptors: bool)
    | Intercepted(name: string, chain: seq<Interceptor>)
    | GlobalPreflight(allowedDomains: seq<string>, allowHTTP: bool)
    | Preflight(allowedDomains: seq<string>, allowHTTP: bool)
    | CorsWrapper(inner: Handler, allowedOrigins: seq<string>, allowHTTP: bool)
    | PathPermission(inner: Handler, configs: seq<PathPerms.PathPermissionConfig>)

  /** The type assertion handler.(ConnectHandlerWithInterceptor) succeeds. */
  predicate AcceptsInterceptors(h: Handler) {
    h.Service? && h.acceptsInterceptors
  }

  // ---------------------------------------------------------------------------
  // Interceptor constructors

  /** AuthInterceptors(logger, imasURL): no interceptor (a panic) for an empty URL, else the authentication gate. */
  function AuthInterceptors(imasURL: string): (r: Option<Interceptor>)
    ensures r.None? <==> imasURL == ""
    ensures r.Some? ==> r.value == Authenticate
  {
    if imasURL == "" then None else Some(Authenticate)
  }

  /** One RequirePermission gate per permission, in order. */
  function PermissionGates(permissions: seq<string>): (gates: seq<Interceptor>)
    ensures |gates| == |permissions|
    ensures forall i :: 0 <= i < |gates| ==> gates[i] == Permission(permissions[i])
  {
    seq(|permissions|, i requires 0 <= i < |permissions| => Permission(permissions[i]))
  }

  /** One RequireUnitPermission gate per permission of one unit, in order. */
  function UnitGates(unit: string, permissions: seq<string>): (gates: seq<Interceptor>)
    ensures |gates| == |permissions|
    ensures forall i :: 0 <= i < |gates| ==> gates[i] == UnitPermission(unit, permissions[i])
  {
    seq(|permissions|, i requires 0 <= i < |permissions| => UnitPermission(unit, permissions[i]))
  }

  /** The bag of unit gates of one unit (the order between units is the map's iteration order). */
  function UnitGateBag(unit: string, permissions: seq<string>): multiset<Interceptor> {
    multiset(UnitGates(unit, permissions))
  }

  /** The unit gates of every unit of a unit-permission map, as a bag. */
  ghost function AllUnitGates(units: map<string, seq<string>>): multiset<Interceptor> {
    Collect(units, units.Keys, UnitGateBag)
  }

  /** The gates a granted unit-gate bag stands for: every (unit, permission) pair of the map. */
  lemma UnitGateMembers(units: map<string, seq<string>>, i: Interceptor)
    ensures i in AllUnitGates(units) <==> i.UnitPermission? && i.unit in units && i.permission in units[i.unit]
  {
    CollectMember(units, units.Keys, UnitGateBag, i);
    if i.UnitPermission? && i.unit in units && i.permission in units[i.unit] {
      var k :| 0 <= k < |units[i.unit]| && units[i.unit][k] == i.permission;
      assert UnitGates(i.unit, units[i.unit])[k] == i;
    }
    if i in AllUnitGates(units) {
      var u :| u in units.Keys && i in UnitGateBag(u, units[u]);
      assert i in UnitGates(u, units[u]);
    }
  }

  /** The permission-gate loop of WithSecureService (connect.go:213-218). */
  method PermissionInterceptors(permissions: seq<string>) returns (gates: seq<Interceptor>)
    ensures gates == PermissionGates(permissions)
    ensures forall i :: 0 <= i < |gates| ==> IsPermissionGate(gates[i])
  {
    gates := [];
    for i := 0 to |permissions|
      invariant gates == PermissionGates(permissions[..i])
    {
      gates := gates + [Permission(permissions[i])];
    }
    assert permissions[..|permissions|] == permissions;
  }

  // ---------------------------------------------------------------------------
  // NewConnectHandler and its options

  /** WithRequiredPermissions(permissions...) and WithUnitPermissions(unit, permissions...). */
  datatype ConnectOption =
    | WithRequiredPermissions(permissions: seq<string>)
    | WithUnitPermissions(unit: string, unitPermissions: seq<string>)

  /** The content of a ConnectOptions value; a nil unit map is the empty map. */
  datatype ConnectConfig = ConnectConfig(requiredPermissions: seq<string>, unitPermissions: map<string, seq<string>>)

  /** What one option does to the options: both append, the unit option to that unit's list. */
  function ApplyConnectOption(c: ConnectConfig, opt: ConnectOption): (r: ConnectConfig)
    ensures opt.WithRequiredPermissions? ==>
              r.requiredPermissions == c.requiredPermissions + opt.permissions && r.unitPermissions == c.unitPermissions
    ensures opt.WithUnitPermissions? ==>
              && r.requiredPermissions == c.requiredPermissions
              && r.unitPermissions.Keys == c.unitPermissions.Keys + {opt.unit}
              && r.unitPermissions[opt.unit] ==
                   (if opt.unit in c.unitPermissions then c.unitPermissions[opt.unit] else []) + opt.unitPermissions
              && forall u :: u in c.unitPermissions && u != opt.unit ==> r.unitPermissions[u] == c.unitPermissions[u]
  {
    match opt
    case WithRequiredPermissions(ps) => c.(requiredPermissions := c.requiredPermissions + ps)
    case WithUnitPermissions(unit, ps) =>
      var current := if unit in c.unitPermissions then c.unitPermissions[unit] else [];
      c.(unitPermissions := c.unitPermissions[unit := current + ps])
  }

  /** The options after applying `options` in order to empty ones. */
  function ConfigAfter(options: seq<ConnectOption>): ConnectConfig
    decreases |options|
  {
    if options == [] then ConnectConfig([], map[])
    else ApplyConnectOption(ConfigAfter(options[..|options| - 1]), options[|options| - 1])
  }

  /** The organisation permissions the options require, every option's list in option order. */
  function RequiredOf(options: seq<ConnectOption>): seq<string>
    decreases |options|
  {
    if options == [] then []
    else
      var last := options[|options| - 1];
      RequiredOf(options[..|options| - 1]) + (if last.WithRequiredPermissions? then last.permissions else [])
  }

  /** Repeated WithRequiredPermissions options accumulate, in order, and unit options do not touch them. */
  lemma {:induction false} RequiredPermissionsAccumulate(options: seq<ConnectOption>)
    ensures ConfigAfter(options).requiredPermissions == RequiredOf(options)
    decreases |options|
  {
    if options != [] {
      RequiredPermissionsAccumulate(options[..|options| - 1]);
    }
  }

  /** Every permission a unit option names ends up in that unit's list. */
  lemma {:induction false} UnitPermissionsKept(options: seq<ConnectOption>, k: nat, p: string)
    requires k < |options| && options[k].WithUnitPermissions? && p in options[k].unitPermissions
    ensures options[k].unit in ConfigAfter(options).unitPermissions
    ensures p in ConfigAfter(options).unitPermissions[options[k].unit]
    decreases |options|
  {
    var prefix := options[..|options| - 1];
    if k < |options| - 1 {
      UnitPermissionsKept(prefix, k, p);
      assert prefix[k] == options[k];
    }
  }

  /** ConnectOptions: the value the option closures update in place. */
  class ConnectOptions {
    var requiredPermissions: seq<string>
    var unitPermissions: map<string, seq<string>>

    function Config(): ConnectConfig
      reads this
    {
      ConnectConfig(requiredPermissions, unitPermissions)
    }

    constructor ()
      ensures Config() == ConnectConfig([], map[])
    {
      requiredPermissions := [];
      unitPermissions := map[];
    }

    /** opt(opts) */
    method Apply(opt: ConnectOption)
      modifies this
      ensures Config() == ApplyConnectOption(old(Config()), opt)
    {
      match opt
      case WithRequiredPermissions(ps) =>
        requiredPermissions := requiredPermissions + ps;
      case WithUnitPermissions(unit, ps) =>
        var current := if unit in unitPermissions then unitPermissions[unit] else [];
        unitPermissions := unitPermissions[unit := current + ps];
    }
  }

  /** The inner loop of NewConnectHandler's unit gates (connect.go:144-146): one gate per permission of `unit`. */
  method AppendGatesOfUnit(gates: seq<Interceptor>, unit: string, permissions: seq<string>) returns (all: seq<Interceptor>)
    ensures all == gates + UnitGates(unit, permissions)
  {
    all := gates;
    for j := 0 to |permissions|
      invariant all == gates + UnitGates(unit, permissions[..j])
    {
      assert UnitGates(unit, permissions[..j + 1]) == UnitGates(unit, permissions[..j]) + [UnitPermission(unit, permissions[j])];
      all := all + [UnitPermission(unit, permissions[j])];
    }
    assert permissions[..|permissions|] == permissions;
  }

  /** The loop state of AppendUnitGates: `added` holds exactly the gates of the units no longer in `remaining`. */
  ghost predicate Accounted(units: map<string, seq<string>>, remaining: set<string>, added: seq<Interceptor>) {
    && remaining <= units.Keys
    && multiset(added) + Collect(units, remaining, UnitGateBag) == AllUnitGates(units)
    && forall i :: 0 <= i < |added| ==> added[i].UnitPermission?
  }

  /** Taking one unit's gates out of the remaining keys moves them into the gates built so far. */
  lemma UnitShareTaken(units: map<string, seq<string>>, remaining: set<string>, added: seq<Interceptor>, unit: string)
    requires Accounted(units, remaining, added) && unit in remaining
    ensures Accounted(units, remaining - {unit}, added + UnitGates(unit, units[unit]))
  {
    CollectRemove(units, remaining, UnitGateBag, unit);
    var share := UnitGates(unit, units[unit]);
    assert multiset(added + share) == multiset(added) + multiset(share);
    forall i | 0 <= i < |added + share| ensures (added + share)[i].UnitPermission? {
      if i >= |added| {
        assert (added + share)[i] == share[i - |added|];
      }
    }
  }

  /** Once no unit remains, appending the gates built so far appends exactly the unit gates of the map. */
  lemma AllUnitsTaken(units: map<string, seq<string>>, remaining: set<string>, gates: seq<Interceptor>,
                      added: seq<Interceptor>)
    requires Accounted(units, remaining, added) && remaining == {}
    ensures var all := gates + added;
      && |all| >= |gates| && all[..|gates|] == gates
      && multiset(all[|gates|..]) == AllUnitGates(units)
      && forall i :: |gates| <= i < |all| ==> all[i].UnitPermission?
  {
    assert Collect(units, remaining, UnitGateBag) == multiset{};
    var all := gates + added;
    assert all[|gates|..] == added;
    forall i | |gates| <= i < |all| ensures all[i].UnitPermission? {
      assert all[i] == added[i - |gates|];
    }
  }

  /** The unit-gate loops of NewConnectHandler (connect.go:143-147), appending to `gates`. */
  method AppendUnitGates(gates: seq<Interceptor>, units: map<string, seq<string>>) returns (all: seq<Interceptor>)
    ensures |all| >= |gates| && all[..|gates|] == gates
    ensures multiset(all[|gates|..]) == AllUnitGates(units)
    ensures forall i :: |gates| <= i < |all| ==> all[i].UnitPermission?
  {
    ghost var added: seq<Interceptor> := [];
    var remaining := units.Keys;
    all := gates;
    while remaining != {}
      invariant all == gates + added
      invariant Accounted(units, remaining, added)
      decreases remaining
    {
      var unit :| unit in remaining;
      UnitShareTaken(units, remaining, added, unit);
      all := AppendGatesOfUnit(all, unit, units[unit]);
      added := added + UnitGates(unit, units[unit]);
      remaining := remaining - {unit};
    }
    AllUnitsTaken(units, remaining, gates, added);
  }

  /**
   * NewConnectHandler(logger, jwks, handler, options...): for a handler that
   * accepts interceptors, the handler with authentication first, then one
   * gate per required permission in order, then one gate per unit permission
   * (units in map order); any other handler is returned unchanged.
   */
  method NewConnectHandler(handler: Handler, options: seq<ConnectOption>) returns (h: Handler)
    ensures !AcceptsInterceptors(handler) ==> h == handler
    ensures AcceptsInterceptors(handler) ==>
      && h.Intercepted? && h.name == handler.name
      && BuiltFor(ConfigAfter(options), h.chain)
      && |h.chain| == 1 + |ConfigAfter(options).requiredPermissions| + |AllUnitGates(ConfigAfter(options).unitPermissions)|
  {
    var opts := new ConnectOptions();
    for i := 0 to |options|
      invariant opts.Config() == ConfigAfter(options[..i])
    {
      assert options[..i + 1][..i] == options[..i];
      opts.Apply(options[i]);
    }
    assert options[..|options|] == options;
    if !AcceptsInterceptors(handler) {
      return handler;
    }
    var required := opts.requiredPermissions;
    var chain := [Authenticate];
    for i := 0 to |required|
      invariant chain == [Authenticate] + PermissionGates(required[..i])
    {
      chain := chain + [Permission(required[i])];
    }
    assert required[..|required|] == required;
    var head := chain;
    chain := AppendUnitGates(chain, opts.unitPermissions);
    ChainAssembled(opts.Config(), head, chain);
    h := Intercepted(handler.name, chain);
  }

  /** Authentication, the required gates, then exactly the unit gates: the chain is built for `c`. */
  lemma ChainAssembled(c: ConnectConfig, head: seq<Interceptor>, chain: seq<Interceptor>)
    requires head == [Authenticate] + PermissionGates(c.requiredPermissions)
    requires |chain| >= |head| && chain[..|head|] == head
    requires multiset(chain[|head|..]) == AllUnitGates(c.unitPermissions)
    requires forall i :: |head| <= i < |chain| ==> chain[i].UnitPermission?
    ensures BuiltFor(c, chain)
    ensures |chain| == 1 + |c.requiredPermissions| + |AllUnitGates(c.unitPermissions)|
  {
    var n := |c.requiredPermissions|;
    assert |chain[|head|..]| == |AllUnitGates(c.unitPermissions)|;
    assert chain[1..1 + n] == head[1..];
    forall i | 1 <= i < |chain| ensures IsPermissionGate(chain[i]) {
      if i < 1 + n {
        assert chain[i] == head[i] == PermissionGates(c.requiredPermissions)[i - 1];
      }
    }
  }

  /** The claims hold every required organisation permission and every unit permission in its unit. */
  predicate GrantsConfig(c: ConnectConfig, claims: Claims) {
    && (forall p :: p in c.requiredPermissions ==> HasPermissionsInOrganisation(claims, p))
    && (forall u, p :: u in c.unitPermissions && p in c.unitPermissions[u] ==> HasPermissionsInUnit(claims, u, p))
  }

  /** The shape of the chain NewConnectHandler builds for options `c`. */
  ghost predicate BuiltFor(c: ConnectConfig, chain: seq<Interceptor>) {
    var n := |c.requiredPermissions|;
    && |chain| >= 1 + n
    && chain[0] == Authenticate
    && chain[1..1 + n] == PermissionGates(c.requiredPermissions)
    && multiset(chain[1 + n..]) == AllUnitGates(c.unitPermissions)
    && forall i :: 1 <= i < |chain| ==> IsPermissionGate(chain[i])
  }

  /**
   * The gates NewConnectHandler installs are all granted exactly when the
   * claims hold every required permission in the organisation and every
   * unit permission in its unit.
   */
  lemma ConnectGatesGranted(c: ConnectConfig, unitGates: seq<Interceptor>, claims: Claims)
    requires multiset(unitGates) == AllUnitGates(c.unitPermissions)
    ensures var gates := PermissionGates(c.requiredPermissions) + unitGates;
      (forall i :: 0 <= i < |gates| ==> Grants(gates[i], claims)) <==> GrantsConfig(c, claims)
  {
    var required := c.requiredPermissions;
    var units := c.unitPermissions;
    var gates := PermissionGates(required) + unitGates;
    var n := |required|;
    if forall i :: 0 <= i < |gates| ==> Grants(gates[i], claims) {
      forall p | p in required ensures HasPermissionsInOrganisation(claims, p) {
        var k :| 0 <= k < n && required[k] == p;
        assert gates[k] == Permission(p);
      }
      forall u, p | u in units && p in units[u] ensures HasPermissionsInUnit(claims, u, p) {
        UnitGateMembers(units, UnitPermission(u, p));
        assert UnitPermission(u, p) in multiset(unitGates);
        var k :| 0 <= k < |unitGates| && unitGates[k] == UnitPermission(u, p);
        assert gates[n + k] == UnitPermission(u, p);
      }
    }
    if GrantsConfig(c, claims) {
      forall i | 0 <= i < |gates| ensures Grants(gates[i], claims) {
        if i < n {
          assert gates[i] == Permission(required[i]);
        } else {
          var g := gates[i];
          assert g == unitGates[i - n];
          assert g in multiset(unitGates);
          UnitGateMembers(units, g);
        }
      }
    }
  }

  /**
   * A Connect handler built by NewConnectHandler, end to end: without a token,
   * or with a token the validator refuses, the call is Unauthenticated; with a
   * valid token the service runs, with the token's auth in its context,
   * exactly when the claims hold every configured organisation and unit
   * permission, and otherwise the call fails with PermissionDenied.
   */
  lemma ConnectHandlerDecision(c: ConnectConfig, chain: seq<Interceptor>, validate: Validator, ctx: Context,
                               req: Request, service: Context -> Outcome)
    requires BuiltFor(c, chain)
    ensures var token := ExtractAccessToken(req.header);
      var r := RunChain(chain, validate, ctx, req, service);
      && (token == "" || validate(token).Failure? ==> r.Failure? && r.error.Connect? && r.error.code == Unauthenticated)
      && (token != "" && validate(token).Success? && GrantsConfig(c, validate(token).value) ==>
            r == service(SetAuth(ctx, AuthInfo(token, validate(token).value), None)))
      && (token != "" && validate(token).Success? && !GrantsConfig(c, validate(token).value) ==>
            r.Failure? && r.error.Connect? && r.error.code == PermissionDenied)
  {
    var n := |c.requiredPermissions|;
    var unitGates := chain[1 + n..];
    var gates := PermissionGates(c.requiredPermissions) + unitGates;
    BuiltForShape(c, chain);
    AuthenticatedChainDecision(gates, validate, ctx, req, service);
    var token := ExtractAccessToken(req.header);
    if token != "" && validate(token).Success? {
      var claims := validate(token).value;
      ConnectGatesGranted(c, unitGates, claims);
      var k := FirstUngranted(gates, claims);
      if k < |gates| {
        assert IsPermissionGate(gates[k]);
      }
    }
  }

  /** A chain built for `c` is authentication followed by the required gates and then the unit gates. */
  lemma BuiltForShape(c: ConnectConfig, chain: seq<Interceptor>)
    requires BuiltFor(c, chain)
    ensures var gates := PermissionGates(c.requiredPermissions) + chain[1 + |c.requiredPermissions|..];
      && chain == [Authenticate] + gates
      && forall i :: 0 <= i < |gates| ==> IsPermissionGate(gates[i])
  {
    var n := |c.requiredPermissions|;
    var gates := PermissionGates(c.requiredPermissions) + chain[1 + n..];
    var rest := chain[1..];
    assert rest[..n] == chain[1..1 + n] && rest[n..] == chain[1 + n..];
    assert gates == rest by {
      assert rest == rest[..n] + rest[n..];
    }
    assert chain == [Authenticate] + rest;
    forall i | 0 <= i < |gates| ensures IsPermissionGate(gates[i]) {
      assert gates[i] == chain[i + 1];
    }
  }

  // ---------------------------------------------------------------------------
  // Handler builders

  /** WithSecureService's handler: organisation gates (no authentication gate) when there are permissions and the handler accepts them. */
  function SecureHandler(handler: Handler, permissions: seq<string>): (h: Handler)
    ensures |permissions| == 0 || !AcceptsInterceptors(handler) ==> h == handler
    ensures |permissions| > 0 && AcceptsInterceptors(handler) ==>
              h == Intercepted(handler.name, PermissionGates(permissions))
  {
    if |permissions| > 0 && AcceptsInterceptors(handler) then Intercepted(handler.name, PermissionGates(permissions))
    else handler
  }

  /**
   * A service registered with WithSecureService and permissions has no
   * authentication gate of its own: unless an earlier interceptor put auth in
   * the context, every call fails with PermissionDenied and the service never runs.
   */
  lemma SecureServiceFailsClosed(handler: Handler, permissions: seq<string>, validate: Validator, ctx: Context,
                                 req: Request, service: Context -> Outcome)
    requires |permissions| > 0 && AcceptsInterceptors(handler)
    requires GetAuth(ctx).Failure?
    ensures var h := SecureHandler(handler, permissions);
      && Authenticate !in h.chain
      && Reaches(h.chain, validate, ctx, req).None?
      && RunChain(h.chain, validate, ctx, req, service).Failure?
      && RunChain(h.chain, validate, ctx, req, service).error.Connect?
      && RunChain(h.chain, validate, ctx, req, service).error.code == PermissionDenied
  {
    var gates := PermissionGates(permissions);
    assert IsPermissionGate(gates[0]);
    NoAuthFailsClosed(gates, validate, ctx, req, service);
  }

  /** applyGlobalInterceptors: install the global interceptors on a handler that accepts them, when there are any. */
  function ApplyGlobalInterceptors(globals: seq<Interceptor>, handler: Handler): (h: Handler)
    ensures |globals| == 0 || !AcceptsInterceptors(handler) ==> h == handler
    ensures |globals| > 0 && AcceptsInterceptors(handler) ==> h == Intercepted(handler.name, globals)
  {
    if |globals| == 0 then handler
    else if AcceptsInterceptors(handler) then Intercepted(handler.name, globals)
    else handler
  }

  /** Installing global interceptors twice is installing them once. */
  lemma ApplyGlobalInterceptorsIdempotent(globals: seq<Interceptor>, handler: Handler)
    ensures ApplyGlobalInterceptors(globals, ApplyGlobalInterceptors(globals, handler)) ==
              ApplyGlobalInterceptors(globals, handler)
  {
  }

  /** HandleCORSPreflightWithOptions(opts) / HandleCORSPreflight(domains, allowHTTP): defaults the domains. */
  function HandleCORSPreflightWithOptions(opts: Cors.Options): (h: Handler)
    ensures h.Preflight? && h.allowHTTP == opts.allowHTTP
    ensures h.allowedDomains == Cors.WithDefaultDomains(opts.allowedDomains)
    ensures h.allowedDomains != []
  {
    Preflight(Cors.WithDefaultDomains(opts.allowedDomains), opts.allowHTTP)
  }

  // ---------------------------------------------------------------------------
  // Serving

  const ConnectPreflightMethods := "POST, OPTIONS"
  const MaxAgeHeader := "Access-Control-Max-Age"
  const MaxAge := "86400"

  /** The five header names a successful preflight sets. */
  const PreflightHeaderNames: set<string> :=
    {AllowOriginHeader, AllowMethodsHeader, AllowHeadersHeader, AllowCredentialsHeader, MaxAgeHeader}

  /** The five Set calls of a successful preflight. */
  function PreflightHeaders(h: Header, origin: string, allowMethods: string): (r: Header)
    ensures r.Keys == h.Keys + PreflightHeaderNames
    ensures r[AllowOriginHeader] == origin
    ensures r[AllowMethodsHeader] == allowMethods
    ensures r[AllowHeadersHeader] == AllowedHeaders
    ensures r[AllowCredentialsHeader] == "true"
    ensures r[MaxAgeHeader] == MaxAge
    ensures forall k :: k in h && k !in PreflightHeaderNames ==> r[k] == h[k]
  {
    h[AllowOriginHeader := origin][AllowMethodsHeader := allowMethods][AllowHeadersHeader := AllowedHeaders]
     [AllowCredentialsHeader := "true"][MaxAgeHeader := MaxAge]
  }

  /**
   * A preflight answer: 400 without an Origin, 403 for an origin the
   * validator refuses, else the CORS headers and 200. Nothing else is written.
   */
  function Preflighted(allowedDomains: seq<string>, allowHTTP: bool, allowMethods: string, origin: string,
                       s: WriterState): (r: WriterState)
    ensures origin == "" ==> r == s.(status := 400)
    ensures origin != "" && !Cors.AllowsOrigin(allowHTTP, allowedDomains, origin) ==> r == s.(status := 403)
    ensures origin != "" && Cors.AllowsOrigin(allowHTTP, allowedDomains, origin) ==>
              r == s.(header := PreflightHeaders(s.header, origin, allowMethods), status := 200)
    ensures r.body == s.body && r.served == s.served
  {
    if origin == "" then s.(status := 400)
    else if !Cors.AllowsOrigin(allowHTTP, allowedDomains, origin) then s.(status := 403)
    else s.(header := PreflightHeaders(s.header, origin, allowMethods), status := 200)
  }

  /** The preflight branch shared by the three preflight handlers. */
  method AnswerPreflight(allowedDomains: seq<string>, allowHTTP: bool, allowMethods: string, origin: string,
                         w: ResponseWriter)
    modifies w
    ensures w.State() == Preflighted(allowedDomains, allowHTTP, allowMethods, origin, old(w.State()))
  {
    if origin == "" {
      w.WriteHeader(400);
      return;
    }
    var allowed := Cors.StandardAllowOriginFunc(allowHTTP, allowedDomains, origin);
    if !allowed {
      w.WriteHeader(403);
      return;
    }
    w.Set(AllowOriginHeader, origin);
    w.Set(AllowMethodsHeader, allowMethods);
    w.Set(AllowHeadersHeader, AllowedHeaders);
    w.Set(AllowCredentialsHeader, "true");
    w.Set(MaxAgeHeader, MaxAge);
    w.WriteHeader(200);
  }

  /** The header the CORS wrapper adds before calling the wrapped handler. */
  function WrapperHeaders(allowedOrigins: seq<string>, allowHTTP: bool, origin: string, h: Header): (r: Header)
    ensures origin != "" && Cors.AllowsOrigin(allowHTTP, allowedOrigins, origin) ==>
              r == h[AllowOriginHeader := origin][AllowCredentialsHeader := "true"]
    ensures origin == "" || !Cors.AllowsOrigin(allowHTTP, allowedOrigins, origin) ==> r == h
  {
    if origin != "" && Cors.AllowsOrigin(allowHTTP, allowedOrigins, origin) then
      h[AllowOriginHeader := origin][AllowCredentialsHeader := "true"]
    else h
  }

  /** What serving `req` with `h` leaves in a writer that was in state `s`. */
  function Served(h: Handler, req: HttpRequest, s: WriterState): WriterState
    decreases h
  {
    match h
    case Service(name, _) => s.(served := s.served + [name])
    case Intercepted(name, _) => s.(served := s.served + [name])
    case GlobalPreflight(domains, allowHTTP) =>
      if req.httpMethod != MethodOptions then s.(status := 404)
      else Preflighted(domains, allowHTTP, ConnectPreflightMethods, Origin(req), s)
    case Preflight(domains, allowHTTP) =>
      if req.httpMethod != MethodOptions then s.(status := 405)
      else Preflighted(domains, allowHTTP, AllowedMethods, Origin(req), s)
    case CorsWrapper(inner, origins, allowHTTP) =>
      if req.httpMethod == MethodOptions then Preflighted(origins, allowHTTP, ConnectPreflightMethods, Origin(req), s)
      else Served(inner, req, s.(header := WrapperHeaders(origins, allowHTTP, Origin(req), s.header)))
    case PathPermission(inner, configs) =>
      match PathPerms.HttpDecision(configs, req.ctx, req.path)
      case Forward => Served(inner, req, s)
      case HttpError(code, message) => ErrorState(s, message, code)
  }

  /** handler.ServeHTTP(w, r) */
  method Serve(h: Handler, w: ResponseWriter, req: HttpRequest)
    modifies w
    ensures w.State() == Served(h, req, old(w.State()))
    decreases h
  {
    match h
    case Service(name, _) =>
      w.Delegate(name);
    case Intercepted(name, _) =>
      w.Delegate(name);
    case GlobalPreflight(domains, allowHTTP) =>
      if req.httpMethod != MethodOptions {
        w.WriteHeader(404);
        return;
      }
      AnswerPreflight(domains, allowHTTP, ConnectPreflightMethods, Origin(req), w);
    case Preflight(domains, allowHTTP) =>
      if req.httpMethod != MethodOptions {
        w.WriteHeader(405);
        return;
      }
      AnswerPreflight(domains, allowHTTP, AllowedMethods, Origin(req), w);
    case CorsWrapper(inner, origins, allowHTTP) =>
      var origin := Origin(req);
      if req.httpMethod == MethodOptions {
        AnswerPreflight(origins, allowHTTP, ConnectPreflightMethods, origin, w);
        return;
      }
      if origin != "" {
        var allowed := Cors.StandardAllowOriginFunc(allowHTTP, origins, origin);
        if allowed {
          w.Set(AllowOriginHeader, origin);
          w.Set(AllowCredentialsHeader, "true");
        }
      }
      Serve(inner, w, req);
    case PathPermission(inner, configs) =>
      var d := PathPerms.ServeHTTP(configs, req.ctx, req.path);
      match d
      case Forward =>
        Serve(inner, w, req);
      case HttpError(code, message) =>
        w.Error(message, code);
  }

  /**
   * The CORS wrapper never answers a non-OPTIONS request itself: the wrapped
   * handler serves it, and the only headers added are Allow-Origin (the
   * request's own origin) and Allow-Credentials, for an allowed origin.
   */
  lemma WrapperDelegates(inner: Handler, origins: seq<string>, allowHTTP: bool, req: HttpRequest, s: WriterState)
    requires req.httpMethod != MethodOptions
    ensures var origin := Origin(req);
      var t := if origin != "" && Cors.AllowsOrigin(allowHTTP, origins, origin)
               then s.(header := s.header[AllowOriginHeader := origin][AllowCredentialsHeader := "true"])
               else s;
      Served(CorsWrapper(inner, origins, allowHTTP), req, s) == Served(inner, req, t)
  {
  }

  /**
   * Every preflight handler answers an OPTIONS request without reaching any
   * service, and a 200 carries the request's own origin in Allow-Origin.
   */
  lemma PreflightNeverReachesService(h: Handler, req: HttpRequest, s: WriterState)
    requires h.GlobalPreflight? || h.Preflight? || h.CorsWrapper?
    requires req.httpMethod == MethodOptions
    ensures var r := Served(h, req, s);
      && r.served == s.served && r.body == s.body
      && r.status in {200, 400, 403}
      && (r.status == 200 ==> Origin(req) != "" && AllowOriginHeader in r.header &&
                               r.header[AllowOriginHeader] == Origin(req))
  {
  }

  /**
   * A path-permission service answers a request whose context carries no auth
   * with 401 whenever a configuration matches the path, without serving it.
   */
  lemma PathPermissionWithoutAuth(inner: Handler, configs: seq<PathPerms.PathPermissionConfig>, req: HttpRequest,
                                  s: WriterState)
    requires GetAuth(req.ctx).Failure?
    requires PathPerms.FirstMatch(configs, req.path) < |configs|
    ensures Served(PathPermission(inner, configs), req, s) == ErrorState(s, "Authentication required", 401)
  {
    PathPerms.MatchedWithoutAuth(configs, req.ctx, req.path);
  }
}

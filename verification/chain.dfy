/**
 * The interceptor chain a Connect handler runs: element 0 is the outermost
 * interceptor, so it sees the call first and the outcome last (the order the
 * commented-out chainInterceptors at connect.go:563-573 documents). Gates
 * either reject the call or let it continue, possibly with a new context;
 * the CORS interceptor rewrites the outcome on its way back; observers
 * (logging, tracing, metrics) only add context values.
 */
module Chain {
  import opened Base
  import opened ConnectErrors
  import opened Rpc
  import opened Claims
  import opened AuthContext
  import opened NavigaConnect
  import opened PathPerms
  import CorsInterceptor

  /** The interceptors the core installs. The token validator is shared and passed to RunChain. */
  datatype Interceptor =
    | Authenticate
    | Permission(permission: string)
    | UnitPermission(unit: string, permission: string)
    | PathGate(configs: seq<PathPermissionConfig>)
    | CorsHeaders(allowedOrigins: seq<string>, allowHTTP: bool)
    | Observer(contextKey: Option<string>)

  /** What an interceptor decides before it calls the rest of the chain. */
  function Admit(i: Interceptor, validate: Validator, ctx: Context, req: Request): Step {
    match i
    case Authenticate => ConnectInterceptor(validate, ctx, req)
    case Permission(p) => RequirePermission(p, ctx)
    case UnitPermission(u, p) => RequireUnitPermission(u, p, ctx)
    case PathGate(configs) => PathGateStep(configs, ctx, req.procedure)
    case CorsHeaders(_, _) => Proceed(ctx)
    case Observer(key) => Proceed(if key.Some? then WithValue(ctx, key.value) else ctx)
  }

  /** What an interceptor does with the outcome the rest of the chain returned. */
  function Finish(i: Interceptor, req: Request, outcome: Outcome): (r: Outcome)
    ensures r.Success? <==> outcome.Success?
  {
    match i
    case CorsHeaders(origins, allowHTTP) => CorsInterceptor.Intercept(origins, allowHTTP, req, outcome)
    case _ => outcome
  }

  /** A unary call through `chain` to `handler`, which the innermost interceptor calls. */
  function RunChain(chain: seq<Interceptor>, validate: Validator, ctx: Context, req: Request,
                    handler: Context -> Outcome): Outcome
    decreases |chain|
  {
    if chain == [] then handler(ctx)
    else
      match Admit(chain[0], validate, ctx, req)
      case Reject(err) => Failure(err)
      case Proceed(inner) => Finish(chain[0], req, RunChain(chain[1..], validate, inner, req, handler))
  }

  /** The context the handler is called with, or None when some interceptor rejects the call. */
  function Reaches(chain: seq<Interceptor>, validate: Validator, ctx: Context, req: Request): Option<Context>
    decreases |chain|
  {
    if chain == [] then Some(ctx)
    else
      match Admit(chain[0], validate, ctx, req)
      case Reject(_) => None
      case Proceed(inner) => Reaches(chain[1..], validate, inner, req)
  }

  /** The outcome rewrites of the whole chain, outermost last. */
  function FinishAll(chain: seq<Interceptor>, req: Request, outcome: Outcome): Outcome
    decreases |chain|
  {
    if chain == [] then outcome else Finish(chain[0], req, FinishAll(chain[1..], req, outcome))
  }

  /**
   * The handler runs only when every interceptor admits the call, and then its
   * outcome comes back through every interceptor's rewrite; a rejected call
   * fails whatever the handler would have done.
   */
  lemma {:induction false} HandlerRunsOnlyWhenAdmitted(chain: seq<Interceptor>, validate: Validator, ctx: Context,
                                                       req: Request, handler: Context -> Outcome, other: Context -> Outcome)
    ensures Reaches(chain, validate, ctx, req).Some? ==>
              RunChain(chain, validate, ctx, req, handler) ==
                FinishAll(chain, req, handler(Reaches(chain, validate, ctx, req).value))
    ensures Reaches(chain, validate, ctx, req).None? ==>
              && RunChain(chain, validate, ctx, req, handler).Failure?
              && RunChain(chain, validate, ctx, req, handler) == RunChain(chain, validate, ctx, req, other)
    decreases |chain|
  {
    if chain != [] {
      match Admit(chain[0], validate, ctx, req)
      case Reject(_) =>
      case Proceed(inner) => HandlerRunsOnlyWhenAdmitted(chain[1..], validate, inner, req, handler, other);
    }
  }

  /** The organisation- and unit-permission gates NewConnectHandler and WithSecureService install. */
  predicate IsPermissionGate(i: Interceptor) {
    i.Permission? || i.UnitPermission?
  }

  /** The claims satisfy a permission gate. */
  predicate Grants(i: Interceptor, c: Claims) {
    match i
    case Permission(p) => HasPermissionsInOrganisation(c, p)
    case UnitPermission(u, p) => HasPermissionsInUnit(c, u, p)
    case _ => true
  }

  /** The error a permission gate rejects with. */
  function Denial(i: Interceptor): (e: Error)
    requires IsPermissionGate(i)
    ensures e.Connect? && e.code == PermissionDenied
  {
    match i
    case Permission(p) => NewError(PermissionDenied, "missing required permission: " + p)
    case UnitPermission(u, p) => NewError(PermissionDenied, "missing required permission for unit: " + u + "/" + p)
  }

  /** The index of the first gate the claims do not satisfy, |gates| when they satisfy all. */
  function FirstUngranted(gates: seq<Interceptor>, c: Claims): (k: nat)
    ensures k <= |gates|
    ensures k < |gates| ==> !Grants(gates[k], c)
    ensures forall j :: 0 <= j < k ==> Grants(gates[j], c)
    decreases |gates|
  {
    if gates == [] || !Grants(gates[0], c) then 0 else 1 + FirstUngranted(gates[1..], c)
  }

  /**
   * Permission gates are conjunctive: with auth in the context, the handler
   * runs with that same context when every gate is granted, and otherwise the
   * call fails with the denial of the first gate not granted.
   */
  lemma {:induction false} GatesConjunctive(gates: seq<Interceptor>, validate: Validator, ctx: Context, req: Request,
                                            handler: Context -> Outcome)
    requires forall i :: 0 <= i < |gates| ==> IsPermissionGate(gates[i])
    requires GetAuth(ctx).Success?
    ensures var k := FirstUngranted(gates, GetAuth(ctx).value.claims);
      RunChain(gates, validate, ctx, req, handler) ==
        if k == |gates| then handler(ctx) else Failure(Denial(gates[k]))
    decreases |gates|
  {
    if gates != [] {
      var claims := GetAuth(ctx).value.claims;
      var tail := gates[1..];
      assert forall i :: 0 <= i < |tail| ==> IsPermissionGate(tail[i]) by {
        forall i | 0 <= i < |tail| ensures IsPermissionGate(tail[i]) { assert tail[i] == gates[i + 1]; }
      }
      GatesConjunctive(tail, validate, ctx, req, handler);
      PermissionGateStep(gates[0], validate, ctx, req, RunChain(tail, validate, ctx, req, handler));
      if Grants(gates[0], claims) {
        var k := FirstUngranted(tail, claims);
        assert FirstUngranted(gates, claims) == k + 1;
        if k < |tail| {
          assert gates[k + 1] == tail[k];
        }
      }
    }
  }

  /** One permission gate, with auth in the context: it admits the same context exactly when it is granted, and leaves the outcome alone. */
  lemma PermissionGateStep(g: Interceptor, validate: Validator, ctx: Context, req: Request, outcome: Outcome)
    requires IsPermissionGate(g) && GetAuth(ctx).Success?
    ensures Grants(g, GetAuth(ctx).value.claims) ==> Admit(g, validate, ctx, req) == Proceed(ctx)
    ensures !Grants(g, GetAuth(ctx).value.claims) ==> Admit(g, validate, ctx, req) == Reject(Denial(g))
    ensures Finish(g, req, outcome) == outcome
  {
  }

  /**
   * The chain NewConnectHandler builds, authentication first: a missing token
   * and an invalid token are Unauthenticated and stop the call; a valid token
   * runs the handler with the token's auth in the context exactly when every
   * permission gate is granted, and otherwise the first denial is returned.
   */
  lemma AuthenticatedChainDecision(gates: seq<Interceptor>, validate: Validator, ctx: Context, req: Request,
                                   handler: Context -> Outcome)
    requires forall i :: 0 <= i < |gates| ==> IsPermissionGate(gates[i])
    ensures var token := ExtractAccessToken(req.header);
      var r := RunChain([Authenticate] + gates, validate, ctx, req, handler);
      && (token == "" ==> r == Failure(NewError(Unauthenticated, "authentication required")))
      && (token != "" && validate(token).Failure? ==> r == Failure(NewError(Unauthenticated, "invalid token")))
      && (token != "" && validate(token).Success? ==>
            var claims := validate(token).value;
            var k := FirstUngranted(gates, claims);
            r == if k == |gates| then handler(SetAuth(ctx, AuthInfo(token, claims), None)) else Failure(Denial(gates[k])))
  {
    var chain := [Authenticate] + gates;
    assert chain[1..] == gates;
    var token := ExtractAccessToken(req.header);
    if token != "" && validate(token).Success? {
      var authed := SetAuth(ctx, AuthInfo(token, validate(token).value), None);
      assert Admit(Authenticate, validate, ctx, req) == Proceed(authed);
      GatesConjunctive(gates, validate, authed, req, handler);
    }
  }

  /**
   * Without an authentication gate the permission gates fail closed: when the
   * context holds no auth, a chain of permission gates and observers that has
   * at least one gate never runs the handler and fails with PermissionDenied,
   * not Unauthenticated.
   */
  lemma {:induction false} NoAuthFailsClosed(chain: seq<Interceptor>, validate: Validator, ctx: Context, req: Request,
                                             handler: Context -> Outcome)
    requires forall i :: 0 <= i < |chain| ==> IsPermissionGate(chain[i]) || chain[i].Observer?
    requires exists i :: 0 <= i < |chain| && IsPermissionGate(chain[i])
    requires GetAuth(ctx).Failure?
    ensures Reaches(chain, validate, ctx, req).None?
    ensures RunChain(chain, validate, ctx, req, handler).Failure?
    ensures RunChain(chain, validate, ctx, req, handler).error.Connect?
    ensures RunChain(chain, validate, ctx, req, handler).error.code == PermissionDenied
    decreases |chain|
  {
    if IsPermissionGate(chain[0]) {
      assert Admit(chain[0], validate, ctx, req) == Reject(Denial(chain[0]));
    } else {
      var key := chain[0].contextKey;
      var inner := if key.Some? then WithValue(ctx, key.value) else ctx;
      assert Admit(chain[0], validate, ctx, req) == Proceed(inner);
      assert GetAuth(inner) == GetAuth(ctx);
      var i :| 0 <= i < |chain| && IsPermissionGate(chain[i]);
      assert i > 0 && IsPermissionGate(chain[1..][i - 1]);
      NoAuthFailsClosed(chain[1..], validate, inner, req, handler);
    }
  }
}

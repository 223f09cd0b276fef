# dindenault request authorisation, modelled in Dafny

dindenault is a Go toolkit for running Connect RPC services behind AWS Lambda.
This project models the part of it that decides whether a request reaches a service, and what the caller gets back otherwise:

- **Authentication.** The NavigaID access token comes from the `Authorization: Bearer` header, or else from `X-Imid-Token`. The validator's verdict is stored in the request context. `GetAuth` reads it back.
- **Permission gates.** Organisation and unit permissions are checked by Connect interceptors (`RequirePermission`, `RequireUnitPermission`), by the helper checks `CheckPermissionConnect` and `CheckUnitPermissionConnect`, and by the convenience layer in `auth.go`. Path-prefix permission tables are checked both as an `http.Handler` (`PathPermissionHandler.ServeHTTP`) and as an interceptor (`PathInterceptors`).
- **Handler assembly.** `NewConnectHandler` builds an interceptor chain of authentication, then required permissions, then unit permissions. `WithSecureService`, `WithPathPermissionService` and the CORS options build handlers. `applyGlobalInterceptors` wraps services that accept interceptors.
- **The two Lambda front ends.**
  - `App` in `app.go`/`connect.go`: options, `prepareHandlers`, case-insensitive prefix routing, the S3 fan-out.
  - `App` in `handler.go`: middlewares, case-sensitive routing, the request-conversion error path.
- **CORS.** Origin validators (the suffix and wildcard rules), the CORS interceptor, and the preflight handlers.
- **Observation interceptors.** Telemetry, X-Ray and logging are modelled as what they compute: the parsed `(service, method)`, metric attributes and the status label. They never change the outcome.

## Modelling notes

- **Errors.** A Go error is a plain error, a Connect error, or an error that wraps another one, as `fmt.Errorf` with `%w` makes (`ConnectErrors.Error`). `errors.As` with a `*connect.Error` target is `ConnectErrors.AsConnect`: it walks the unwrap chain.
- **CORS interceptor.** The App installs the copy in internal/interceptors/interceptors.go:97-143, through `CORSInterceptors` (connect.go:61-63). That copy is the same code as cors/interceptor.go:16-62 apart from names. Both are modelled by `CorsInterceptor.Intercept`, which the chain runs for a `CorsHeaders` interceptor (`Chain.Finish`).
- **Default organisation function.** connect.go:413 stores `telemetry.DefaultOrganizationFunction`, a factory of type `func() func(ctx) string`, in the `OrganizationFn` field of type `func(ctx) string`. The model reads the line as storing the function that factory returns, `Telemetry.DefaultOrganizationFunction()`, which always answers "unknown".
- **Contexts.** A Go `context.Context` is a value made of layers (`AuthContext.Context`). `SetAuth` pushes an auth layer; other `WithValue` calls push plain layers. `GetAuth` finds the nearest auth layer.
- **Interceptor chains.**
  - An interceptor is a datatype value (`Chain.Interceptor`).
  - A chain runs with element 0 outermost (`Chain.RunChain`), as connect-go wraps them (connect.go:563-573).
  - A gate either rejects with an error or passes a (possibly new) context to the rest of the chain.
- **Handlers.** `http.Handler` values built by the package are the datatype `ConnectSetup.Handler`. What a handler writes into a `ResponseWriter` is the specification function `ConnectSetup.Served`. The method `ConnectSetup.Serve` writes into the mutable `Http.ResponseWriter` class and is proved to leave exactly that state.
- **Options.** Functional options are a datatype of option values. Their effect is a left fold (`Dindenault.AppAfter`, `ConnectSetup.ConfigAfter`). The `App` classes apply them to their fields in a loop, proved against the fold.
- **Map iteration.** Go visits maps in an unspecified order; the model picks keys with `:|`. The result is specified up to order: as a multiset equal to a ghost collection over the key set (`MapCollect.Collect`). The affected loops are unit-permission interceptors in `NewConnectHandler` and permission flattening in `AuthorizeWithDetails`.
- **External services.**
  - The JWKS token validator is a function parameter (`Rpc.Validator`).
  - The token-issuing service is a class whose answers are recorded rather than computed (`Refresh.AccessTokenService`).
  - The S3 event callback is a function parameter.

Some properties proved here are worth knowing when using the package:

- A `WithConnectRPCCORSGlobal` registration at `"/"` matches every path that starts with `/`, so it shadows every registration after it (`Dindenault.CatchAllShadowsLaterRegistrations`).
- The global interceptors, including an authentication interceptor given through `WithInterceptors`, are applied only to services that accept interceptors (`Dindenault.GlobalsSkipBuiltHandlers`). These registrations never get them, because their handlers are not Connect handlers:
  - `WithPathPermissionService`;
  - `WithConnectServiceCORS`;
  - the CORS preflight options.

  `WithSecureService` registers whatever the service's own `WithInterceptors` returns (connect.go:221). The model assumes that handler accepts no further interceptors, and only under that assumption does `WithSecureService` skip the globals too. If the service's type returns a handler that still accepts interceptors, `prepareHandlers` (app.go:119, connect.go:396-397) wraps it again, and the consequence for secure services below does not apply.

  Consequences:
  - Under that assumption, a secure service's permission gates see no authentication and fail closed with `PermissionDenied` (`ConnectSetup.SecureServiceFailsClosed`).
  - A path-permission service answers 401 on every protected path unless some outer layer put auth in the request context (`ConnectSetup.PathPermissionWithoutAuth`).
- `RequirePermission` and `RequireUnitPermission` reject a request without authentication with `PermissionDenied`, not `Unauthenticated` (navigaid/connect.go:80-82 and 103-105). The model follows the code.

## Model

| member | source | states |
|---|---|---|
| AuthContext.SetAuth | navigaid/context.go:42-47 | the returned context carries exactly the given auth info and error and extends the given context |
| AuthContext.GetAuth | navigaid/context.go:28-39 | no auth in the context gives the "no auth info" error; a stored error is returned as the error; otherwise the stored auth info |
| AuthContext.LastSetAuthWins | navigaid/context.go:28-47 | after any sequence of SetAuth and unrelated WithValue layers, GetAuth reports the last SetAuth (or the original context's auth when there was none) |
| AuthContext.GetSetNoError | navigaid/context.go:28-47 | GetAuth(SetAuth(ctx, a, nil)) returns a |
| AuthContext.GetSetError | navigaid/context.go:28-47 | GetAuth(SetAuth(ctx, a, err)) returns err |
| NavigaConnect.ExtractAccessToken | navigaid/connect.go:55-68 | a `Bearer ` Authorization header yields the rest of the header; otherwise the X-Imid-Token header |
| NavigaConnect.BearerRoundTrip | navigaid/connect.go:55-68 | setting `Authorization: Bearer t` makes the extracted token t, whatever else the header holds |
| NavigaConnect.BareBearerHasNoFallback | navigaid/connect.go:55-68 | `Authorization: Bearer ` with nothing after it gives the empty token, without falling back to X-Imid-Token |
| NavigaConnect.ConnectInterceptor | navigaid/connect.go:16-51 | no token: Unauthenticated "authentication required"; invalid token: Unauthenticated "invalid token"; valid token: proceeds with a context whose auth is the token and its claims |
| NavigaConnect.AuthenticateConnect | navigaid/connect.go:142-152 | returns the context's auth info, or the plain error "authentication required" |
| NavigaConnect.CheckPermissionConnect | navigaid/connect.go:155-175 | no error exactly when auth is present and the permission is an organisation grant; the two error texts otherwise |
| NavigaConnect.CheckUnitPermissionConnect | navigaid/connect.go:178-199 | no error exactly when auth is present and the permission is granted in the unit; the two error texts otherwise |
| NavigaConnect.RequirePermission | navigaid/connect.go:74-89 | proceeds with the same context exactly when auth is present and holds the organisation permission; otherwise PermissionDenied naming the permission |
| NavigaConnect.RequireUnitPermission | navigaid/connect.go:95-112 | proceeds exactly when auth is present and the unit grants the permission; otherwise PermissionDenied naming unit/permission |
| NavigaConnect.NewAuthRequiredError | navigaid/connect.go:126-131 | code "unauthenticated", message "Authentication required" |
| NavigaConnect.NewPermissionDeniedError | navigaid/connect.go:134-139 | code "permission_denied", message "Permission denied: " followed by the permission |
| Chain.Finish | connect.go:563-573 | an interceptor's post-processing never turns a success into a failure or back |
| Chain.HandlerRunsOnlyWhenAdmitted | connect.go:563-573 | the service runs, once, with the context the gates produced exactly when every gate admits; otherwise the chain fails and its result does not depend on the service |
| Chain.Denial | navigaid/connect.go:74-112 | a permission gate's rejection is a PermissionDenied Connect error |
| Chain.FirstUngranted | navigaid/connect.go:74-112 | the index of the first gate the claims do not grant (the length if all grant); every gate before it is granted |
| Chain.PermissionGateStep | navigaid/connect.go:74-112 | with auth present, a permission gate proceeds unchanged when granted, rejects with its own denial otherwise, and leaves the outcome of the rest untouched |
| Chain.GatesConjunctive | navigaid/connect.go:74-112 | with auth present, a run of permission gates reaches the service with the same context when every gate is granted, and otherwise fails with the denial of the first ungranted gate |
| Chain.AuthenticatedChainDecision | navigaid/connect.go:16-112 | authentication followed by permission gates: a missing token and an invalid token are Unauthenticated; a valid token reaches the service with the authenticated context when every gate grants its claims, and fails with the denial of the first ungranted gate otherwise |
| Chain.NoAuthFailsClosed | navigaid/connect.go:74-112 | without auth in the context, a chain of gates and observers holding at least one permission gate never reaches the service and fails with PermissionDenied |
| PathPerms.FirstMatch | pathperms.go:36-42 | the index of the first configuration whose prefix the path has, or the length when none has it |
| PathPerms.FirstMissing | pathperms.go:63-74 | the index of the first permission the claims lack in the organisation, or the length when none is missing |
| PathPerms.PathGateStep | pathperms.go:142-190 | an unmatched path proceeds; a matched one needs auth (Unauthenticated otherwise), and proceeds exactly when every listed permission is an organisation grant, else PermissionDenied for the first missing one |
| PathPerms.FindConfig | pathperms.go:36-42 | returns the first matching configuration, or none exactly when no prefix matches |
| PathPerms.MissingPermission | pathperms.go:63-74 | returns the first missing permission, or none exactly when all are granted |
| PathPerms.ServeHTTP | pathperms.go:30-78 | no match: the wrapped handler serves; match without auth: 401 "Authentication required"; match with auth: forwards exactly when all permissions are granted, else 403 "Permission denied" |
| PathPerms.PathInterceptors | pathperms.go:142-190 | the interceptor's decision equals the path-gate decision for the request's procedure |
| PathPerms.EmptyPermissionsNeedOnlyAuth | pathperms.go:142-190 | a matched configuration with no permissions admits exactly the authenticated requests |
| PathPerms.LaterConfigsIgnored | pathperms.go:36-42 | once a configuration matches, appending more configurations does not change the decision |
| PathPerms.FirstMatchPrefix | pathperms.go:36-42 | the first match within a prefix of the table stays the first match of the whole table |
| Auth.CheckUserPermission | auth.go:32-51 | true exactly when the permission is empty, an organisation grant, or listed in some unit |
| Auth.AuthorizeWithDetails | auth.go:54-88 | no auth: Unauthenticated wrapping the error text; ungranted permission: PermissionDenied; otherwise the result copies the claims, starts with the organisation permissions, and holds every unit permission (as a multiset) |
| Auth.FlattenedPermissionsAreGrants | auth.go:67-74 | a permission is in the flattened list exactly when it is granted somewhere |
| Auth.GetAuthResultFromContext | auth.go:94-96 | succeeds exactly when auth is present; then organisation, names, e-mail, user ID and groups are copied from the claims, and the permissions are the organisation list followed by every unit permission (as a multiset); otherwise Unauthenticated "failed to get authorization: " with the GetAuth error's text |
| Auth.OrganizationFromContext | auth.go:100-107 | the claims' organisation, or an error with the text "failed to get organization: " plus the GetAuth error's text that wraps that error, so errors.As finds the same Connect error it would find on the GetAuth error |
| Auth.UserFromContext | auth.go:111-118 | the given and family names, or two empty strings without auth |
| Auth.EmailFromContext | auth.go:122-129 | the e-mail, or the empty string without auth |
| Auth.HasPermission | auth.go:133-140 | false without auth; otherwise exactly the checkUserPermission verdict |
| Auth.ScopedGatesImplyUnscoped | auth.go:32-51 | a request that passes RequirePermission or RequireUnitPermission also passes the unscoped checkUserPermission |
| Refresh.Stored | navigaid/refresh.go:55-58 | the cached entry keeps the access token, and it counts as fresh at the time it was stored exactly when the lifetime exceeds the 30-second buffer |
| Refresh.TokenRefresher.GetAccessToken | navigaid/refresh.go:36-61 | a fresh cached token is returned with no service call; otherwise exactly one service call, whose error is returned with the cache untouched, or whose token is returned and cached |
| Refresh.ImmediateRepeatHitsCache | navigaid/refresh.go:36-61 | when the first of two calls at the same instant has the service issue a token living over 30 seconds, the service is asked exactly once and both calls return that token; when the first call is answered from the cache, so is the second |
| Refresh.RefreshToken | navigaid/refresh.go:72-83 | always fails: "token refresher not configured" without a refresher, else "token refresh not implemented" |
| Refresh.WithTokenRefresh | navigaid/refresh.go:64-105 | no auth: the GetAuth error; a "token expired" error: the refresh error; otherwise the function's own result |
| Refresh.ConnectErrorsAreNotRefreshed | navigaid/refresh.go:91 | a Connect error from the function is returned unchanged, since its text never reads "token expired" |
| Telemetry.ExtractServiceAndMethod | telemetry/telemetry.go:231-256 | equals the specification: the first two non-empty `/`-separated parts, "unknown" for each one missing; neither contains `/` |
| Telemetry.SlashFree | telemetry/telemetry.go:231-256 | neither extracted name contains `/` |
| Telemetry.EmptyProcedure | telemetry/telemetry.go:231-256 | the empty procedure gives ("unknown", "unknown") |
| Telemetry.TwoParts | telemetry/telemetry.go:231-256 | "a/b" gives (a, b) for non-empty slash-free parts |
| Telemetry.DottedServiceKept | telemetry/telemetry.go:231-256 | "test.Service/Method" keeps the dotted package in the service |
| Telemetry.LeadingSlashIgnored | telemetry/telemetry.go:231-256 | a leading slash does not change the result |
| Telemetry.LaterPartsIgnored | telemetry/telemetry.go:231-256 | once two parts are present, further parts do not change the result |
| Telemetry.ResponseStatus | telemetry/telemetry.go:158-167 | "success" exactly on success; for an error, the code of the Connect error that ends its unwrap chain (the error itself or one it wraps), and "error" when the chain ends in anything else |
| Telemetry.WrappedConnectErrorKeepsCode | telemetry/telemetry.go:158-167 | an error wrapping a Connect error is labelled with the wrapped error's code |
| ConnectErrors.UnwrapChain | telemetry/telemetry.go:161-162 | the chain errors.As walks: starts with the error, each element wraps the next, and the last wraps nothing |
| ConnectErrors.AsConnect | telemetry/telemetry.go:161-162 | errors.As finds a Connect error exactly when the unwrap chain ends in one, and then finds that one |
| ConnectErrors.UpdateConnectMeta | cors/interceptor.go:41-48 | writing the metadata of the Connect error errors.As returns keeps the error's text and chain length and changes only that error's metadata; without one the error is unchanged |
| Telemetry.CodeIsNotSuccess | telemetry/telemetry.go:158-167 | no Connect code string is "success" or "error", so the three labels never collide |
| Telemetry.CommonAttributes | telemetry/telemetry.go:141-145 | three attributes, none of them named "status" |
| Telemetry.ResponseAttributes | telemetry/telemetry.go:170-173 | the common attributes, then exactly one "status" attribute, last |
| Telemetry.Organization | telemetry/telemetry.go:135-138 | "unknown" without an organisation function, else its value |
| Telemetry.DefaultOrganizationFunction | telemetry/telemetry.go:53-57 | always "unknown" |
| Telemetry.Interceptor | telemetry/telemetry.go:103-189 | the outcome passes through unchanged; request and response attributes are the common attributes plus the status label |
| TelemetryProvider.DefaultOrganizationFn | telemetry.go:62-69 | the claims' organisation when auth is present, "unknown" otherwise |
| TelemetryProvider.DefaultTelemetryOptions | telemetry.go:60-71 | empty namespace, metrics enabled, the auth-based organisation function |
| TelemetryProvider.NoopInitialize | telemetry.go:44-47 | no error, and a shutdown function that never fails |
| TelemetryProvider.NoopInterceptor | telemetry.go:50-52 | no interceptor |
| TelemetryProvider.NoopInstrumentHandler | telemetry.go:55-57 | the handler unchanged |
| Interceptors.ExtractServiceAndMethod | internal/interceptors/interceptors.go:17-38 | fewer than three `/`-parts: ("unknown", "unknown"); otherwise the method is part 2 and the service is part 1 when part 1 has no dot, else the dot-free segment after its last dot |
| Interceptors.WellFormedProcedure | internal/interceptors/interceptors.go:17-38 | "/pkg.Svc/M" gives (Svc, M) |
| Interceptors.SingleSlashIsUnknown | internal/interceptors/interceptors.go:17-38 | "a/b" gives ("unknown", "unknown"), unlike the telemetry parser |
| Interceptors.FromParts | internal/interceptors/interceptors.go:17-38 | fewer than three parts give "unknown" twice; otherwise the method is the third part and the service is the second part when it has no dot, else the dot-free segment that ends it after a dot |
| Interceptors.FromPartsPrefix | internal/interceptors/interceptors.go:17-38 | once three parts are present, further parts do not change the result |
| Interceptors.ExtraPartsIgnored | internal/interceptors/interceptors.go:17-38 | extra trailing parts do not change the result |
| Interceptors.EmptyServicePart | internal/interceptors/interceptors.go:17-38 | "//M" gives an empty service name |
| Xray.ExtractServiceAndMethod | xray/interceptor.go:14-35 | fewer than three `/`-parts: ("unknown", "unknown"); otherwise the method is part 2 and the service is the last dot-separated segment of part 1 |
| Xray.AgreesWithInterceptors | xray/interceptor.go:14-35 | the X-Ray parser and the internal parser agree on every procedure |
| Xray.SubsegmentName | xray/interceptor.go:48 | the subsegment name is name, ":", service, ".", method |
| Xray.SubsegmentOfWellFormed | xray/interceptor.go:48 | for "/pkg.Svc/M" the subsegment is "name:Svc.M" |
| Cors.WithDefaultDomains | connect.go:343-345 | an empty domain list becomes the default list; any other is kept; the result is never empty |
| Cors.StandardAllowOriginFunc | cors/cors.go:26-56 | a wildcard admits everything, or only https origins when HTTP is refused; otherwise a refused scheme loses and a suffix match wins; an empty list admits nothing |
| CorsMiddleware.StandardAllowOriginFunc | cors.go:62-80 | a non-https origin is refused unless HTTP is allowed; otherwise allowed exactly when it ends with a listed suffix |
| CorsMiddleware.ValidatorsAgreeWithoutWildcard | cors.go:62-80 | without "*" in the list, the root-package validator and the cors-package validator decide alike |
| CorsMiddleware.WildcardIsLiteral | cors.go:62-80 | "*" is only a literal suffix in the root-package validator, while the cors-package validator treats it as a wildcard |
| CorsMiddleware.AnyOfAllowOriginFuncs | cors.go:84-94 | approves exactly when one of the validators approves; no validators approve nothing |
| CorsMiddleware.AnyOfTwo | cors.go:84-94 | combining two validators is their disjunction |
| CorsMiddleware.EffectiveDomains | cors.go:37-39 | empty domains become the defaults, others are kept |
| CorsMiddleware.NewCORSMiddleware | cors.go:36-58 | default method POST; the suffix validator always admits; with a custom validator the decision is their disjunction, without one it is the suffix rule |
| CorsInterceptor.WithCorsHeaders | cors/interceptor.go:54-57 | the four CORS headers with their values are set; every other header is kept |
| CorsInterceptor.Intercept | cors/interceptor.go:16-62 | success and failure are kept, with their texts and unwrap chains; for an allowed origin the response headers (on success) or the metadata of the Connect error errors.As finds on the chain (on failure) get the CORS headers; an error with no Connect error on its chain, a missing origin and a refused one leave the outcome unchanged |
| CorsInterceptor.WrappedConnectErrorGetsHeaders | cors/interceptor.go:38-48 | for an allowed origin, the CORS headers reach a Connect error wrapped by another error, which keeps its text |
| ConnectSetup.AuthInterceptors | connect.go:72-80 | an empty IMAS URL gives no interceptor (the source panics); otherwise the authentication interceptor |
| ConnectSetup.PermissionGates | connect.go:138-140 | one organisation gate per permission, in order |
| ConnectSetup.UnitGates | connect.go:144-146 | one unit gate per permission of the unit, in order |
| ConnectSetup.UnitGateMembers | connect.go:143-147 | a gate is among the unit gates exactly when its unit is configured with its permission |
| ConnectSetup.PermissionInterceptors | connect.go:137-140 | the loop builds exactly the permission gates |
| ConnectSetup.ApplyConnectOption | connect.go:92-107 | WithRequiredPermissions appends to the required list; WithUnitPermissions appends to that unit's list and leaves every other unit alone |
| ConnectSetup.RequiredPermissionsAccumulate | connect.go:118-121 | after all options, the required permissions are every option's permissions concatenated in order |
| ConnectSetup.UnitPermissionsKept | connect.go:99-107 | a unit permission given by any option is still configured after all options |
| ConnectSetup.ConnectOptions.Apply | connect.go:118-121 | the options object changes exactly as the option function says |
| ConnectSetup.AppendGatesOfUnit | connect.go:144-146 | appends exactly the unit's gates |
| ConnectSetup.UnitShareTaken | connect.go:143-147 | taking one more unit's gates keeps the loop's account: gates added so far plus the gates of the units left are all the unit gates |
| ConnectSetup.AllUnitsTaken | connect.go:143-147 | when no unit is left, the gates added are exactly all unit gates, each a unit permission gate |
| ConnectSetup.AppendUnitGates | connect.go:143-147 | keeps the prefix and appends, in some order, exactly the unit gates of every unit (as a multiset) |
| ConnectSetup.NewConnectHandler | connect.go:111-157 | a handler that cannot take interceptors is returned unchanged; otherwise it is the same service with a chain built for the folded options: authentication, then the required permission gates in order, then exactly the unit gates in some order, 1 + required + unit gates long |
| ConnectSetup.ChainAssembled | connect.go:132-150 | authentication and the required gates followed by a permutation of the unit gates is a chain built for the options, of that length |
| ConnectSetup.BuiltForShape | connect.go:132-150 | a chain built for the options is authentication followed only by permission gates |
| ConnectSetup.ConnectGatesGranted | connect.go:132-150 | every installed gate is granted exactly when the claims hold all required organisation permissions and all configured unit permissions |
| ConnectSetup.ConnectHandlerDecision | connect.go:111-157 | a missing or invalid token is Unauthenticated; a valid token reaches the service with the authenticated context exactly when the options are granted, and is PermissionDenied otherwise |
| ConnectSetup.SecureHandler | connect.go:200-238 | with permissions and an interceptor-capable handler, the handler gets one gate per permission and no authentication; otherwise it is unchanged |
| ConnectSetup.SecureServiceFailsClosed | connect.go:200-238 | a secure service without auth in the context never reaches the service and fails with PermissionDenied |
| ConnectSetup.ApplyGlobalInterceptors | connect.go:389-405 | only an interceptor-capable handler is wrapped, and only when there are global interceptors |
| ConnectSetup.ApplyGlobalInterceptorsIdempotent | connect.go:389-405 | applying the global interceptors twice is the same as once |
| ConnectSetup.HandleCORSPreflightWithOptions | connect.go:341-386 | a preflight handler for the effective (never empty) domain list |
| ConnectSetup.PreflightHeaders | connect.go:377-381 | the five preflight headers with their values are set; every other header is kept |
| ConnectSetup.Preflighted | connect.go:357-384 | no Origin: 400; refused origin: 403; allowed origin: the preflight headers and 200; body and service untouched |
| ConnectSetup.AnswerPreflight | connect.go:357-384 | the writer ends in the Preflighted state |
| ConnectSetup.WrapperHeaders | connect.go:548-552 | an allowed origin adds Allow-Origin and Allow-Credentials; otherwise the headers are unchanged |
| ConnectSetup.Serve | connect.go:247-300 | the writer ends exactly in the state Served describes for every kind of handler |
| ConnectSetup.WrapperDelegates | connect.go:511-557 | outside preflight the CORS wrapper only adds the two headers and delegates to the wrapped handler |
| ConnectSetup.PreflightNeverReachesService | connect.go:247-386 | an OPTIONS request to a preflight or CORS-wrapped handler never reaches a service and answers 200, 400 or 403, with 200 only for a present, echoed origin |
| PathPerms.MatchedWithoutAuth | pathperms.go:51-60 | a path matched by some configuration, without auth in the context, is answered 401 "Authentication required" |
| ConnectSetup.PathPermissionWithoutAuth | pathperms.go:51-60 | a protected path without auth leaves the writer as http.Error(401, "Authentication required") does |
| Http.ErrorState | pathperms.go:57-70 | http.Error: Content-Length removed, a plain-text Content-Type and "nosniff" set, other headers kept, the status written, the message appended as a line |
| Http.ResponseWriter.Error | pathperms.go:57-70 | the writer ends in ErrorState of its previous state |
| Dindenault.ApplyOption | connect.go:165-507 | each option appends its registration and its global interceptors and leaves the S3 handlers alone; only telemetry options touch the telemetry settings |
| Dindenault.OptionsOnlyAppend | app.go:91-102 | the registrations and global interceptors after a prefix of the options are a prefix of the final ones |
| Dindenault.ServiceRegistered | connect.go:172-179 | a WithService option puts its registration at the position reached by the options before it |
| Dindenault.FirstRoute | app.go:143-158 | the index of the first registration matching the path, or the length when none does |
| Dindenault.CatchAllShadowsLaterRegistrations | connect.go:247-300 | a registration at "/" receives every path starting with "/" unless an earlier one matched |
| Dindenault.PathMatchingIgnoresCase | app.go:105-111 | matching does not depend on the case of the request path or of the registered path |
| Dindenault.Prepared | app.go:114-123 | same paths, each handler with the global interceptors applied |
| Dindenault.PreparedTwice | app.go:114-123 | preparing twice, as both ALB and API Gateway entry points do, equals preparing once |
| Dindenault.GlobalsSkipBuiltHandlers | connect.go:389-405 | registrations made by secure, path-permission and CORS options are left untouched by prepareHandlers |
| Dindenault.RespondUsesOneRoute | app.go:127-165 | a response is either 404 "Not found" with no service reached, or the first matching registration's output |
| Dindenault.S3CallsIndex | app.go:241-261 | every (record, handler) pair gets exactly one call, at position record × handlers + handler |
| Dindenault.S3CallsLength | app.go:241-261 | records × handlers calls in total |
| Dindenault.App.New | app.go:91-102 | the app's state is the fold of the options |
| Dindenault.App.Apply | connect.go:165-507 | the app's state changes exactly as ApplyOption says |
| Dindenault.App.PrepareHandlers | app.go:114-123 | the registrations become Prepared of the old ones; nothing else changes |
| Dindenault.App.ProcessRequest | app.go:127-165 | the response is Respond's; 404 "Not found" when nothing matches; any other status comes from a matching registration |
| Dindenault.EventCalls | app.go:248-255 | one record's event goes to each handler, one call per handler, in order |
| Dindenault.CallHandlers | app.go:248-255 | calls each handler with the event in order; at most one log line per call |
| Dindenault.App.HandleS3 | app.go:241-261 | calls every handler for every record in order; handler errors are only logged, and the result has no error |
| Didenault.ComposeLayers | handler.go:64-72 | composing puts the middlewares, in list order, outside the handler's own layers and keeps its service |
| Didenault.ComposeAppend | handler.go:64-72 | composing a + b is composing a around composing b |
| Didenault.ApplyMiddlewares | handler.go:67-69 | the reverse loop builds exactly the composition, first middleware outermost |
| Didenault.ApplyOption | handler.go:45-59 | WithService appends a registration; WithMiddleware appends middlewares |
| Didenault.OptionsKeepOrder | handler.go:32-59 | after all options, the services and middlewares are each in option order |
| Didenault.Wrap | handler.go:64-72 | same paths, each handler composed with the middlewares |
| Didenault.HandleWrapsAgain | handler.go:62-72 | calling Handle twice wraps every handler in the middlewares twice |
| Didenault.CorsMiddlewareDecision | middleware.go:60-83 | OPTIONS answers 200 with the fixed methods and headers, echoing only a listed origin, and never reaches the service; other methods add Allow-Origin for a listed origin and delegate |
| Didenault.ServiceReached | middleware.go:60-83 | a non-OPTIONS request reaches the core service exactly once, with status and body untouched |
| Didenault.ServeCors | middleware.go:60-83 | the writer ends in the state Served describes for the CORS middleware |
| Didenault.Serve | handler.go:102 | the writer ends in the state Served describes |
| Didenault.FirstRoute | handler.go:100-106 | the index of the first registration whose path is a prefix of the request path, case-sensitively |
| Didenault.RoutingIsCaseSensitive | handler.go:100-106 | a registration whose path matches the request path only up to case is passed over here, while the Connect App's pathMatches accepts it |
| Didenault.CaseOnlyMismatch | handler.go:100-106 | "/svc/Call" and "/Svc/" match only up to case |
| Didenault.App.New | handler.go:32-42 | the app's state is the fold of the options |
| Didenault.App.Handle | handler.go:62-72 | every registration's handler is replaced by its composition with the middlewares; nothing else changes |
| Didenault.App.Route | handler.go:97-111 | the response is Respond's; 404 "Not found" when nothing matches |
| Didenault.App.HandleEventAsWritten | handler.go:74-95 | as written: a failed conversion reaches a nil dereference (no response); a successful one is routed |
| Didenault.App.HandleEvent | handler.go:90-95 | corrected: a failed conversion answers 500 "Failed to create request"; a successful one is routed |

## Left out

- Token validation against the JWKS (signature, expiry, key rotation) is a function parameter; only its verdict is modelled.
- The `Claims` permission methods `HasPermissionsInOrganisation` and `HasPermissionsInUnit` are modelled as list membership. The claims type's own file is not part of this model.
- The token-issuing service behind `TokenRefresher` is external: its answers are recorded, not computed. The mutex is left out, since the model is sequential.
- Refresh.TokenRefresher.GetAccessToken: reads the clock once; the source reads it twice (lines 43 and 57). The Go `time.Duration` int64 overflow for huge `expires_in` values is not modelled.
- Emission of metrics, traces and logs (OpenTelemetry, CloudWatch, X-Ray segments, slog) is left out. The interceptors are modelled by what they compute and by passing the outcome through. The Logging, X-Ray and OpenTelemetry interceptors and middlewares are the pass-through `Observer`/`Observe` values.
- Conversion between Lambda events and `http.Request` is a parameter. Its failure is the only thing the model uses.
- `HandleMultiple`, `HandleALB` and `HandleAPIGateway` are left out: they dispatch on event shape and convert types. Their shared step, prepareHandlers, is modelled, and so is its repetition (`Dindenault.PreparedTwice`).
- The error return of `GetLambdaResponse` is left out. The response is a snapshot of the writer's final state.
- options.go (logger and X-Ray convenience options) and the `rs/cors` library behind `NewCORSMiddleware` are not part of this model, beyond the options object it receives.
- `WithTelemetryAWS` is left out: it only reads AWS configuration.
- Telemetry options are held as a value. The source shares one `*Options` pointer between later option calls; that aliasing is not modelled.
- `strings.ToLower` is modelled on ASCII letters only. HTTP header names are looked up as given, without canonicalisation.
- A nil map and an empty map are the same value.
- Errors wrapping several errors at once (`errors.Join`, several `%w` verbs) are left out, and so is the cause inside a Connect error. `errors.As` stops at the first Connect error, so that cause is never reached here.
- Connect response headers and error metadata are changed in place in the source. The model returns the changed outcome as a new value.
- A handler that already carries interceptors (`Intercepted`) is modelled as no longer accepting more. Handlers the package did not build are opaque services: serving one only records that it was reached.

## Findings

| source | as written | input that shows it | evidently intended | confidence | as-written member | corrected member |
|---|---|---|---|---|---|---|
| handler.go:78 | `req.Method` and the other request fields are logged before `err` is checked, and the conversion returns a nil request on error | a Lambda event whose path fails to unescape, e.g. "/%zz": the conversion fails and the handler dereferences a nil request | answer 500 "Failed to create request", as lines 90-95 do | not executed | Didenault.App.HandleEventAsWritten | Didenault.App.HandleEvent |

/**
 * telemetry.go: the telemetry provider the application falls back to when
 * OpenTelemetry is not wanted, and the default way of naming a call's
 * organisation.
 */
module TelemetryProvider {
  import opened Base
  import opened ConnectErrors
  import opened AuthContext
  import Chain

  const Unknown := "unknown"

  /** TelemetryOptions */
  datatype TelemetryOptions = TelemetryOptions(
    metricNamespace: string,
    organizationFn: Context -> string,
    disableMetrics: bool)

  /** The organisation function of DefaultTelemetryOptions: the claims' organisation, or "unknown" without auth. */
  function DefaultOrganizationFn(ctx: Context): (org: string)
    ensures GetAuth(ctx).Success? ==> org == GetAuth(ctx).value.claims.org
    ensures Lookup(ctx).None? ==> org == Unknown
    ensures Lookup(ctx).Some? && Lookup(ctx).value.err.Some? ==> org == Unknown
  {
    match GetAuth(ctx)
    case Failure(_) => Unknown
    case Success(auth) => auth.claims.org
  }

  /** DefaultTelemetryOptions: only the organisation function is set. */
  function DefaultTelemetryOptions(): (o: TelemetryOptions)
    ensures o.metricNamespace == "" && !o.disableMetrics
    ensures forall ctx :: o.organizationFn(ctx) == DefaultOrganizationFn(ctx)
  {
    TelemetryOptions("", DefaultOrganizationFn, false)
  }

  /** What Initialize returns: a shutdown function and an error. */
  datatype Initialized = Initialized(shutdown: Context -> Option<Error>, err: Option<Error>)

  /** NoopTelemetry.Initialize: never fails, and its shutdown function never fails either. */
  function NoopInitialize(serviceName: string, opts: TelemetryOptions): (r: Initialized)
    ensures r.err.None?
    ensures forall ctx :: r.shutdown(ctx).None?
  {
    Initialized(_ => None, None)
  }

  /** NoopTelemetry.Interceptor: no interceptor (nil). */
  function NoopInterceptor(opts: TelemetryOptions): (r: Option<Chain.Interceptor>)
    ensures r.None?
  {
    None
  }

  /** NoopTelemetry.InstrumentHandler: the handler, unchanged. */
  function NoopInstrumentHandler<H>(handler: H): (r: H)
    ensures r == handler
  {
    handler
  }
}

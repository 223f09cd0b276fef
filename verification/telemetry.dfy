/**
 * telemetry/telemetry.go: the decisions of the metrics interceptor. It parses
 * the procedure into (service, method), picks the organisation, classifies the
 * outcome into a status, and builds the metric attributes; the call's outcome
 * itself is passed back unchanged.
 */
module Telemetry {
  import opened Base
  import opened Strings
  import opened ConnectErrors
  import opened Rpc
  import opened AuthContext

  /** UnknownValue */
  const Unknown := "unknown"

  /** The non-empty parts, in order. */
  function NonEmptyParts(parts: seq<string>): (clean: seq<string>)
    ensures |clean| <= |parts|
    ensures forall i :: 0 <= i < |clean| ==> clean[i] != ""
    ensures forall x :: x in clean <==> x in parts && x != ""
    ensures (forall i :: 0 <= i < |parts| ==> parts[i] == "") <==> clean == []
  {
    if parts == [] then []
    else (if parts[0] == "" then [] else [parts[0]]) + NonEmptyParts(parts[1..])
  }

  /** Keeping the non-empty parts of a longer list extends the kept list by the new part when it is non-empty. */
  lemma {:induction false} NonEmptyPartsSnoc(parts: seq<string>, part: string)
    ensures NonEmptyParts(parts + [part]) == NonEmptyParts(parts) + (if part == "" then [] else [part])
    decreases |parts|
  {
    if parts == [] {
      assert NonEmptyParts([part]) == (if part == "" then [] else [part]) + NonEmptyParts([]);
    } else {
      assert (parts + [part])[1..] == parts[1..] + [part];
      NonEmptyPartsSnoc(parts[1..], part);
    }
  }

  /** (service, method): the first two non-empty slash-separated parts, "unknown" for each that is missing. */
  function ServiceAndMethod(procedure: string): (r: (string, string))
  {
    var clean := NonEmptyParts(Split(procedure, '/'));
    (if |clean| >= 1 then clean[0] else Unknown, if |clean| >= 2 then clean[1] else Unknown)
  }

  /**
   * ExtractServiceAndMethod: collects the non-empty parts in a loop, then takes
   * the first as the service and the second as the method.
   */
  method ExtractServiceAndMethod(procedure: string) returns (service: string, methodName: string)
    ensures (service, methodName) == ServiceAndMethod(procedure)
    ensures '/' !in service && '/' !in methodName
  {
    var parts := Split(procedure, '/');
    var cleanParts: seq<string> := [];
    for i := 0 to |parts|
      invariant cleanParts == NonEmptyParts(parts[..i])
    {
      assert parts[..i + 1] == parts[..i] + [parts[i]];
      NonEmptyPartsSnoc(parts[..i], parts[i]);
      if parts[i] != "" {
        cleanParts := cleanParts + [parts[i]];
      }
    }
    assert parts[..|parts|] == parts;
    service := if |cleanParts| >= 1 then cleanParts[0] else Unknown;
    methodName := if |cleanParts| >= 2 then cleanParts[1] else Unknown;
    SlashFree(procedure);
  }

  /** Neither name ServiceAndMethod returns holds a slash: both are pieces of the split procedure, or "unknown". */
  lemma SlashFree(procedure: string)
    ensures '/' !in ServiceAndMethod(procedure).0 && '/' !in ServiceAndMethod(procedure).1
  {
    var parts := Split(procedure, '/');
    var clean := NonEmptyParts(parts);
    if |clean| >= 1 {
      assert clean[0] in parts;
    }
    if |clean| >= 2 {
      assert clean[1] in parts;
    }
  }

  /** The empty procedure gives ("unknown", "unknown"). */
  lemma EmptyProcedure()
    ensures ServiceAndMethod("") == (Unknown, Unknown)
  {
    assert Split("", '/') == [""];
  }

  /** "a/b" with slash-free, non-empty a and b gives (a, b): the package stays in the service name. */
  lemma TwoParts(a: string, b: string)
    requires a != "" && b != "" && '/' !in a && '/' !in b
    ensures ServiceAndMethod(a + "/" + b) == (a, b)
  {
    SplitConcat(a, b, '/');
    SplitNoSep(a, '/');
    SplitNoSep(b, '/');
    assert NonEmptyParts([a, b]) == [a] + NonEmptyParts([b]);
    assert NonEmptyParts([b]) == [b] + NonEmptyParts([]);
  }

  /** "test.Service/Method" gives ("test.Service", "Method"). */
  lemma DottedServiceKept()
    ensures ServiceAndMethod("test.Service/Method") == ("test.Service", "Method")
  {
    TwoParts("test.Service", "Method");
    assert "test.Service" + "/" + "Method" == "test.Service/Method";
  }

  /** Leading, trailing and doubled slashes do not matter: a leading slash changes nothing. */
  lemma LeadingSlashIgnored(procedure: string)
    ensures ServiceAndMethod("/" + procedure) == ServiceAndMethod(procedure)
  {
    assert "/" + procedure == [] + ['/'] + procedure;
    SplitConcat([], procedure, '/');
    assert Split([], '/') == [""];
    assert NonEmptyParts([""] + Split(procedure, '/')) == NonEmptyParts(Split(procedure, '/')) by {
      assert ([""] + Split(procedure, '/'))[1..] == Split(procedure, '/');
    }
  }

  /** Parts beyond the second non-empty one are ignored. */
  lemma {:induction false} LaterPartsIgnored(procedure: string, extra: string)
    requires |NonEmptyParts(Split(procedure, '/'))| >= 2
    ensures ServiceAndMethod(procedure + "/" + extra) == ServiceAndMethod(procedure)
  {
    var parts := Split(procedure, '/');
    assert procedure + "/" + extra == procedure + ['/'] + extra;
    SplitConcat(procedure, extra, '/');
    NonEmptyPartsAppend(parts, Split(extra, '/'));
  }

  lemma {:induction false} NonEmptyPartsAppend(a: seq<string>, b: seq<string>)
    ensures NonEmptyParts(a + b) == NonEmptyParts(a) + NonEmptyParts(b)
    decreases |a|
  {
    if a != [] {
      var kept := if a[0] == "" then [] else [a[0]];
      assert (a + b)[0] == a[0] && (a + b)[1..] == a[1..] + b;
      NonEmptyPartsAppend(a[1..], b);
      assert NonEmptyParts(a + b) == kept + NonEmptyParts(a[1..] + b);
      assert NonEmptyParts(a) == kept + NonEmptyParts(a[1..]);
    } else {
      assert a + b == b;
    }
  }

  /**
   * The response status: "success", the code name of the Connect error that
   * errors.As finds on the error's chain (the error itself or one it wraps), or
   * "error" when the chain holds none.
   */
  function ResponseStatus(outcome: Outcome): (status: string)
    ensures outcome.Success? <==> status == "success"
    ensures outcome.Failure? ==> var c := UnwrapChain(outcome.error);
      && (c[|c| - 1].Connect? ==> status == CodeString(c[|c| - 1].code))
      && (!c[|c| - 1].Connect? ==> status == "error")
    ensures outcome.Failure? && outcome.error.Connect? ==> status == CodeString(outcome.error.code)
    ensures outcome.Failure? && outcome.error.Plain? ==> status == "error"
  {
    match outcome
    case Success(_) => "success"
    case Failure(err) =>
      var found := AsConnect(err);
      if found.Some? then
        CodeIsNotSuccess(found.value.code);
        CodeString(found.value.code)
      else "error"
  }

  /** fmt.Errorf("load: %w", connect.NewError(NotFound, …)) is labelled "not_found", not "error". */
  lemma WrappedConnectErrorKeepsCode(msg: string, code: Code, inner: string)
    ensures ResponseStatus(Failure(Wrapped(msg, NewError(code, inner)))) == CodeString(code)
  {
    assert UnwrapChain(Wrapped(msg, NewError(code, inner))) == [Wrapped(msg, NewError(code, inner)), NewError(code, inner)];
  }

  /** No Connect code is named "success" or "error". */
  lemma CodeIsNotSuccess(c: Code)
    ensures CodeString(c) != "success" && CodeString(c) != "error"
  {
  }

  /** A metric attribute. */
  datatype Attribute = Attribute(key: string, value: string)

  /** The attributes every metric of a call carries. */
  function CommonAttributes(service: string, methodName: string, organization: string): (attrs: seq<Attribute>)
    ensures |attrs| == 3
    ensures forall i :: 0 <= i < |attrs| ==> attrs[i].key != "status"
  {
    [Attribute("service", service), Attribute("method", methodName), Attribute("organization", organization)]
  }

  /** The response attributes: a copy of the common ones with exactly one "status" attribute after them. */
  function ResponseAttributes(common: seq<Attribute>, status: string): (attrs: seq<Attribute>)
    ensures |attrs| == |common| + 1
    ensures attrs[..|common|] == common
    ensures attrs[|common|] == Attribute("status", status)
    ensures (forall i :: 0 <= i < |common| ==> common[i].key != "status") ==>
              forall i :: 0 <= i < |attrs| && attrs[i].key == "status" ==> i == |common|
  {
    common + [Attribute("status", status)]
  }

  /** The organisation: the configured function's answer, or "unknown" without one. */
  function Organization(organizationFn: Option<Context -> string>, ctx: Context): (org: string)
    ensures organizationFn.None? ==> org == Unknown
    ensures organizationFn.Some? ==> org == organizationFn.value(ctx)
  {
    if organizationFn.Some? then organizationFn.value(ctx) else Unknown
  }

  /** DefaultOrganizationFunction(): a function that always answers "unknown". */
  function DefaultOrganizationFunction(): (fn: Context -> string)
    ensures forall ctx :: fn(ctx) == Unknown
  {
    _ => Unknown
  }

  /**
   * The metrics interceptor on a call whose rest of the chain produced `next`:
   * the outcome is returned unchanged, and the request and response metrics
   * carry the parsed procedure, the organisation and the outcome's status.
   */
  method Interceptor(organizationFn: Option<Context -> string>, ctx: Context, req: Request, next: Outcome)
    returns (result: Outcome, requestAttrs: seq<Attribute>, responseAttrs: seq<Attribute>)
    ensures result == next
    ensures requestAttrs == CommonAttributes(ServiceAndMethod(req.procedure).0, ServiceAndMethod(req.procedure).1,
                                             Organization(organizationFn, ctx))
    ensures responseAttrs == requestAttrs + [Attribute("status", ResponseStatus(next))]
  {
    var service, methodName := ExtractServiceAndMethod(req.procedure);
    var organization := Organization(organizationFn, ctx);
    requestAttrs := CommonAttributes(service, methodName, organization);
    var status := ResponseStatus(next);
    responseAttrs := ResponseAttributes(requestAttrs, status);
    result := next;
  }
}

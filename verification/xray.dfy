/** xray/interceptor.go: the procedure parsing and subsegment naming of the X-Ray interceptor. */
module Xray {
  import opened Strings
  import Interceptors

  const Unknown := "unknown"

  /** ExtractServiceAndMethod as xray/interceptor.go writes it. */
  function ExtractServiceAndMethod(procedure: string): (r: (string, string))
    ensures var parts := Split(procedure, '/');
      && (|parts| < 3 ==> r == (Unknown, Unknown))
      && (|parts| >= 3 ==> r.1 == parts[2] && '.' !in r.0)
      && (|parts| >= 3 && '.' !in parts[1] ==> r.0 == parts[1])
      && (|parts| >= 3 && '.' in parts[1] ==> HasSuffix(parts[1], "." + r.0))
  {
    var parts := Split(procedure, '/');
    if |parts| >= 3 then
      var serviceParts := Split(parts[1], '.');
      SplitMany(parts[1], '.');
      JoinEndsWithLast(serviceParts, '.');
      (serviceParts[|serviceParts| - 1], parts[2])
    else (Unknown, Unknown)
  }

  /** The X-Ray copy agrees with the internal interceptors' parser on every procedure. */
  lemma AgreesWithInterceptors(procedure: string)
    ensures ExtractServiceAndMethod(procedure) == Interceptors.ExtractServiceAndMethod(procedure)
  {
  }

  /** The subsegment opened for a call: the interceptor's name, ':', then "service.method". */
  function SubsegmentName(name: string, procedure: string): (s: string)
    ensures var parsed := ExtractServiceAndMethod(procedure);
      && |s| == |name| + 1 + |parsed.0| + 1 + |parsed.1|
      && s[..|name|] == name && s[|name|] == ':'
      && s[|name| + 1..|name| + 1 + |parsed.0|] == parsed.0
      && s[|name| + 1 + |parsed.0|] == '.'
      && s[|s| - |parsed.1|..] == parsed.1
  {
    var parsed := ExtractServiceAndMethod(procedure);
    name + ":" + parsed.0 + "." + parsed.1
  }

  /** For a well-formed "/pkg.Svc/M" the subsegment is "name:Svc.M". */
  lemma SubsegmentOfWellFormed(name: string, pkg: string, svc: string, m: string)
    requires '/' !in pkg && '/' !in svc && '.' !in svc && '/' !in m
    ensures SubsegmentName(name, "/" + pkg + "." + svc + "/" + m) == name + ":" + svc + "." + m
  {
    Interceptors.WellFormedProcedure(pkg, svc, m);
    AgreesWithInterceptors("/" + pkg + "." + svc + "/" + m);
  }
}

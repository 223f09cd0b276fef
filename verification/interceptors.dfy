/**
 * internal/interceptors/interceptors.go: procedure-path parsing for logging.
 * A Connect procedure reads "/package.Service/Method"; the service is the last
 * dot-separated segment of the second slash-separated part.
 */
module Interceptors {
  import opened Strings

  const Unknown := "unknown"

  /**
   * The (service, method) pair read from the slash-separated parts of a
   * procedure: the service is the last dot-separated segment of the second
   * part (the whole part when it holds no dot), the method is the third part.
   */
  function FromParts(parts: seq<string>): (r: (string, string))
    ensures |parts| < 3 ==> r == (Unknown, Unknown)
    ensures |parts| >= 3 ==> '.' !in r.0 && r.1 == parts[2]
    ensures |parts| >= 3 && '.' !in parts[1] ==> r.0 == parts[1]
    ensures |parts| >= 3 && '.' in parts[1] ==> HasSuffix(parts[1], "." + r.0)
  {
    if |parts| >= 3 then
      var serviceParts := Split(parts[1], '.');
      SplitMany(parts[1], '.');
      JoinEndsWithLast(serviceParts, '.');
      (serviceParts[|serviceParts| - 1], parts[2])
    else (Unknown, Unknown)
  }

  /** ExtractServiceAndMethod(procedure): (service, method), or ("unknown", "unknown") with fewer than three parts. */
  function ExtractServiceAndMethod(procedure: string): (r: (string, string))
    ensures var parts := Split(procedure, '/');
      && (|parts| < 3 ==> r == (Unknown, Unknown))
      && (|parts| >= 3 ==> '.' !in r.0 && r.1 == parts[2] && '/' !in r.1)
      && (|parts| >= 3 && '.' !in parts[1] ==> r.0 == parts[1])
      && (|parts| >= 3 && '.' in parts[1] ==> HasSuffix(parts[1], "." + r.0))
  {
    FromParts(Split(procedure, '/'))
  }

  /** "/pkg.Svc/M" gives ("Svc", "M"), however many dots the package holds. */
  lemma WellFormedProcedure(pkg: string, svc: string, m: string)
    requires '/' !in pkg && '/' !in svc && '.' !in svc && '/' !in m
    ensures ExtractServiceAndMethod("/" + pkg + "." + svc + "/" + m) == (svc, m)
  {
    var qualified := pkg + "." + svc;
    assert '/' !in qualified;
    assert "/" + pkg + "." + svc + "/" + m == [] + ['/'] + (qualified + ['/'] + m);
    SplitConcat([], qualified + ['/'] + m, '/');
    SplitConcat(qualified, m, '/');
    SplitNoSep(qualified, '/');
    SplitNoSep(m, '/');
    assert Split([], '/') == [""];
    assert qualified == pkg + ['.'] + svc;
    SplitConcat(pkg, svc, '.');
    SplitNoSep(svc, '.');
  }

  /** A procedure with a single slash, such as "test.Service/Method", is not recognised. */
  lemma SingleSlashIsUnknown(a: string, b: string)
    requires '/' !in a && '/' !in b
    ensures ExtractServiceAndMethod(a + "/" + b) == (Unknown, Unknown)
  {
    SplitConcat(a, b, '/');
    SplitNoSep(a, '/');
    SplitNoSep(b, '/');
  }

  /** Parts after the method are ignored. */
  lemma ExtraPartsIgnored(procedure: string, extra: string)
    requires |Split(procedure, '/')| >= 3
    ensures ExtractServiceAndMethod(procedure + "/" + extra) == ExtractServiceAndMethod(procedure)
  {
    assert procedure + "/" + extra == procedure + ['/'] + extra;
    SplitConcat(procedure, extra, '/');
    FromPartsPrefix(Split(procedure, '/'), Split(extra, '/'));
  }

  /** Only the first three parts matter. */
  lemma FromPartsPrefix(parts: seq<string>, more: seq<string>)
    requires |parts| >= 3
    ensures FromParts(parts + more) == FromParts(parts)
  {
    assert (parts + more)[1] == parts[1];
    assert (parts + more)[2] == parts[2];
  }

  /** An empty service part gives the empty service name. */
  lemma EmptyServicePart(m: string)
    requires '/' !in m
    ensures ExtractServiceAndMethod("//" + m) == ("", m)
  {
    assert "//" + m == [] + ['/'] + ([] + ['/'] + m);
    SplitConcat([], [] + ['/'] + m, '/');
    SplitConcat([], m, '/');
    SplitNoSep(m, '/');
    assert Split([], '/') == [""];
    assert Split([], '.') == [""];
  }
}

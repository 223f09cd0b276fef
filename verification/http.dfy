/**
 * The net/http surface the handlers use: a request (method, path, headers and
 * the request context) and a response writer whose header map, status and body
 * the handlers update in place.
 */
module Http {
  import opened Rpc
  import opened AuthContext

  const MethodOptions := "OPTIONS"

  /** An incoming HTTP request as the handlers read it. */
  datatype HttpRequest = HttpRequest(httpMethod: string, path: string, header: Header, ctx: Context)

  /** r.Header.Get("Origin") */
  function Origin(req: HttpRequest): string {
    Get(req.header, "Origin")
  }

  /**
   * A snapshot of a response writer: headers, status (0 until WriteHeader),
   * body, and the names of the opaque service handlers that wrote to it.
   */
  datatype WriterState = WriterState(header: Header, status: int, body: string, served: seq<string>)

  const ContentLength := "Content-Length"
  const ContentType := "Content-Type"
  const ContentTypeOptions := "X-Content-Type-Options"
  const PlainText := "text/plain; charset=utf-8"

  /**
   * The writer after http.Error(w, msg, code): Content-Length dropped, a plain
   * text Content-Type and "nosniff" set, every other header kept, the status
   * written and the message printed as a line.
   */
  function ErrorState(s: WriterState, msg: string, code: int): (r: WriterState)
    ensures r.header.Keys == s.header.Keys - {ContentLength} + {ContentType, ContentTypeOptions}
    ensures r.header[ContentType] == PlainText && r.header[ContentTypeOptions] == "nosniff"
    ensures forall k :: k in s.header && k !in {ContentLength, ContentType, ContentTypeOptions} ==>
              r.header[k] == s.header[k]
    ensures r.status == code && r.served == s.served
    ensures |r.body| == |s.body| + |msg| + 1 && r.body[..|s.body|] == s.body
    ensures r.body[|s.body|..|s.body| + |msg|] == msg && r.body[|r.body| - 1] == '\n'
  {
    var h := (s.header - {ContentLength})[ContentType := PlainText][ContentTypeOptions := "nosniff"];
    WriterState(h, code, s.body + msg + "\n", s.served)
  }

  /** http.ResponseWriter */
  class ResponseWriter {
    var header: Header
    var status: int
    var body: string
    var served: seq<string>

    function State(): WriterState
      reads this
    {
      WriterState(header, status, body, served)
    }

    constructor ()
      ensures State() == WriterState(map[], 0, "", [])
    {
      header := map[];
      status := 0;
      body := "";
      served := [];
    }

    /** w.Header().Set(name, value) */
    method Set(name: string, value: string)
      modifies this
      ensures State() == old(State()).(header := old(header)[name := value])
    {
      header := header[name := value];
    }

    /** w.WriteHeader(code) */
    method WriteHeader(code: int)
      modifies this
      ensures State() == old(State()).(status := code)
    {
      status := code;
    }

    /** http.Error(w, msg, code): the error headers, the status, then the message and a newline as body. */
    method Error(msg: string, code: int)
      modifies this
      ensures State() == ErrorState(old(State()), msg, code)
    {
      header := header - {ContentLength};
      header := header[ContentType := PlainText];
      header := header[ContentTypeOptions := "nosniff"];
      status := code;
      body := body + msg + "\n";
    }

    /** A service handler the model does not see into serves the request. */
    method Delegate(name: string)
      modifies this
      ensures State() == old(State()).(served := old(served) + [name])
    {
      served := served + [name];
    }
  }
}

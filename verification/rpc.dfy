/**
 * The RPC call abstraction the interceptors see: a header map keyed by
 * canonical header name, the procedure path, and the response or error that
 * the rest of the chain produces.
 */
module Rpc {
  import opened Base
  import opened ConnectErrors

  /** Header map keyed by canonical name ("Authorization", "X-Imid-Token", "Origin"). */
  type Header = map<string, string>

  /** Header().Get(name): the value, or "" when the header is absent. */
  function Get(h: Header, name: string): (v: string)
    ensures name in h ==> v == h[name]
    ensures name !in h ==> v == ""
  {
    if name in h then h[name] else ""
  }

  /** A unary Connect request: its headers and its procedure, e.g. "/pkg.Service/Method". */
  datatype Request = Request(header: Header, procedure: string)

  /** A unary Connect response: its headers and an opaque message. */
  datatype Response = Response(header: Header, message: string)

  /** What a unary call returns: a response or an error. */
  type Outcome = Result<Response, Error>
}

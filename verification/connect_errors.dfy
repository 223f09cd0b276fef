/**
 * Errors as the core produces and inspects them: plain Go errors and Connect
 * errors, which carry a status code, a message and a metadata header map.
 */
module ConnectErrors {
  import opened Base

  /** The Connect status codes. */
  datatype Code =
    | Canceled | Unknown | InvalidArgument | DeadlineExceeded | NotFound
    | AlreadyExists | PermissionDenied | ResourceExhausted | FailedPrecondition
    | Aborted | OutOfRange | Unimplemented | Internal | Unavailable | DataLoss
    | Unauthenticated

  /** Code.String(): the snake-case name of a code. */
  function CodeString(c: Code): string {
    match c
    case Canceled => "canceled"
    case Unknown => "unknown"
    case InvalidArgument => "invalid_argument"
    case DeadlineExceeded => "deadline_exceeded"
    case NotFound => "not_found"
    case AlreadyExists => "already_exists"
    case PermissionDenied => "permission_denied"
    case ResourceExhausted => "resource_exhausted"
    case FailedPrecondition => "failed_precondition"
    case Aborted => "aborted"
    case OutOfRange => "out_of_range"
    case Unimplemented => "unimplemented"
    case Internal => "internal"
    case Unavailable => "unavailable"
    case DataLoss => "data_loss"
    case Unauthenticated => "unauthenticated"
  }

  /**
   * A Go `error`: a plain error (errors.New, fmt.Errorf without %w), a
   * *connect.Error, or an error that wraps another one (fmt.Errorf with %w),
   * whose text was fixed when it was made.
   */
  datatype Error =
    | Plain(msg: string)
    | Connect(code: Code, msg: string, meta: map<string, string>)
    | Wrapped(msg: string, inner: Error)

  /**
   * The chain errors.Unwrap walks: the error itself, then each wrapped error in
   * turn, ending with the first one that wraps nothing.
   */
  function UnwrapChain(e: Error): (c: seq<Error>)
    ensures |c| >= 1 && c[0] == e && !c[|c| - 1].Wrapped?
    ensures forall i :: 0 <= i < |c| - 1 ==> c[i].Wrapped? && c[i + 1] == c[i].inner
  {
    match e
    case Wrapped(_, inner) => [e] + UnwrapChain(inner)
    case _ => [e]
  }

  /**
   * errors.As(err, &connectErr): the first *connect.Error on the chain. Only
   * the end of the chain can be one, so it is found exactly when the chain ends
   * in a Connect error.
   */
  function AsConnect(e: Error): (r: Option<Error>)
    ensures var c := UnwrapChain(e);
      && (c[|c| - 1].Connect? ==> r == Some(c[|c| - 1]))
      && (!c[|c| - 1].Connect? ==> r == None)
  {
    match e
    case Connect(_, _, _) => Some(e)
    case Plain(_) => None
    case Wrapped(_, inner) =>
      assert UnwrapChain(e)[1..] == UnwrapChain(inner);
      AsConnect(inner)
  }

  /**
   * Updating the metadata of the Connect error errors.As finds, through the
   * pointer it hands back: every error on the chain keeps its text, and the
   * Connect error, if any, gets the new metadata.
   */
  function UpdateConnectMeta(e: Error, f: map<string, string> -> map<string, string>): (r: Error)
    ensures Text(r) == Text(e)
    ensures |UnwrapChain(r)| == |UnwrapChain(e)|
    ensures AsConnect(e).None? ==> r == e
    ensures AsConnect(e).Some? ==> AsConnect(r) == Some(AsConnect(e).value.(meta := f(AsConnect(e).value.meta)))
  {
    match e
    case Connect(_, _, meta) => e.(meta := f(meta))
    case Plain(_) => e
    case Wrapped(m, inner) =>
      assert UnwrapChain(e)[1..] == UnwrapChain(inner);
      var r := Wrapped(m, UpdateConnectMeta(inner, f));
      assert UnwrapChain(r)[1..] == UnwrapChain(r.inner);
      r
  }

  /** connect.NewError(code, errors.New(msg)): a Connect error with empty metadata. */
  function NewError(code: Code, msg: string): (e: Error)
    ensures e.Connect? && e.code == code && e.msg == msg && e.meta == map[]
  {
    Connect(code, msg, map[])
  }

  /** err.Error(): a Connect error prints as "code: message", or the code alone when the message is empty; a wrapping error prints its own text. */
  function Text(e: Error): string {
    match e
    case Plain(m) => m
    case Wrapped(m, _) => m
    case Connect(c, m, _) => if m == "" then CodeString(c) else CodeString(c) + ": " + m
  }

  /** No Connect error's text reads "token expired"; only a plain error can. */
  lemma ConnectTextIsNotTokenExpired(e: Error)
    requires e.Connect?
    ensures Text(e) != "token expired"
  {
    if e.msg != "" {
      var t := Text(e);
      var n := |CodeString(e.code)|;
      assert t[n] == ':';
      assert ':' !in "token expired";
    }
  }
}

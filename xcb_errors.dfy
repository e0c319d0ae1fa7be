/**
 * The XCB backend's conversions of x11rb errors into `OSError`
 * (`From<ConnectionError>`, `From<ReplyError>`, `From<ReplyOrIdError>`).
 */
module XcbErrors {
  import opened X11Rb
  import E = Errors

  const MAXIMUM_REQUEST_LENGTH_MESSAGE: string :=
    "a request larger than the maximum X11 server request length was sent"
  const FD_PASSING_FAILED_MESSAGE: string :=
    "failed to pass file descriptor to the X11 server"

  /** The conversion declares `UnsupportedExtension` unreachable. */
  predicate Convertible(e: ConnectionError)
  {
    !e.UnsupportedExtension?
  }

  predicate ReplyConvertible(e: ReplyError)
  {
    e.ReplyConnectionError? ==> Convertible(e.err)
  }

  predicate ReplyOrIdConvertible(e: ReplyOrIdError)
  {
    e.IdConnectionError? ==> Convertible(e.err)
  }

  predicate XConvertible(e: XError)
  {
    match e
    case Connection(c) => Convertible(c)
    case Reply(r) => ReplyConvertible(r)
    case ReplyOrId(i) => ReplyOrIdConvertible(i)
  }

  /** Every error a fault oracle can inject is one the conversions accept. */
  predicate FaultsConvertible(faults: map<nat, XError>)
  {
    forall i :: i in faults ==> XConvertible(faults[i])
  }

  function FromConnectionError(e: ConnectionError): (r: E.OSError)
    requires Convertible(e)
    ensures r.Unknown? <==> e.UnknownError?
    ensures r.Parse? <==> e.ParseError?
    ensures r.InsufficientMemory? <==> e.InsufficientMemory?
    ensures r.IO? <==> e.IOError?
    ensures e.IOError? ==> r.io == e.io
    ensures r.Other? <==> e.MaximumRequestLengthExceeded? || e.FDPassingFailed?
    ensures r.Other? ==> r.message.Text?
  {
    match e
    case UnknownError => E.Unknown
    case MaximumRequestLengthExceeded => E.Other(E.Text(MAXIMUM_REQUEST_LENGTH_MESSAGE))
    case FDPassingFailed => E.Other(E.Text(FD_PASSING_FAILED_MESSAGE))
    case ParseError => E.Parse
    case InsufficientMemory => E.InsufficientMemory
    case IOError(io) => E.IO(io)
  }

  function FromReplyError(e: ReplyError): (r: E.OSError)
    requires ReplyConvertible(e)
    ensures e.ReplyConnectionError? ==> r == FromConnectionError(e.err)
    ensures e.ReplyX11Error? ==> r == E.Other(E.DebugX11(e.x11))
  {
    match e
    case ReplyConnectionError(c) => FromConnectionError(c)
    case ReplyX11Error(x) => E.Other(E.DebugX11(x))
  }

  function FromReplyOrIdError(e: ReplyOrIdError): (r: E.OSError)
    requires ReplyOrIdConvertible(e)
    ensures e.IdConnectionError? ==> r == FromConnectionError(e.err)
    ensures !e.IdConnectionError? ==> r == E.Other(E.DebugReplyOrId(e))
  {
    match e
    case IdConnectionError(c) => FromConnectionError(c)
    case _ => E.Other(E.DebugReplyOrId(e))
  }

  /** What the `?` operator turns a failed x11rb call into. */
  function FromXError(e: XError): (r: E.OSError)
    requires XConvertible(e)
    ensures e.Connection? ==> r == FromConnectionError(e.connection)
    ensures e.Reply? ==> r == FromReplyError(e.reply)
    ensures e.ReplyOrId? ==> r == FromReplyOrIdError(e.replyOrId)
  {
    match e
    case Connection(c) => FromConnectionError(c)
    case Reply(r) => FromReplyError(r)
    case ReplyOrId(i) => FromReplyOrIdError(i)
  }

  /** No information about a connection error is lost: distinct errors stay distinct. */
  lemma FromConnectionErrorInjective(a: ConnectionError, b: ConnectionError)
    requires Convertible(a) && Convertible(b)
    requires FromConnectionError(a) == FromConnectionError(b)
    ensures a == b
  {
  }

  /**
   * Errors that did not come from the connection itself always become `Other`,
   * carrying the rendering of the original error, never one of the named kinds.
   */
  lemma ProtocolErrorsBecomeOther(e: XError)
    requires XConvertible(e)
    requires e.Reply? ==> e.reply.ReplyX11Error?
    requires e.ReplyOrId? ==> !e.replyOrId.IdConnectionError?
    requires !e.Connection?
    ensures FromXError(e).Other?
    ensures !FromXError(e).message.Text?
  {
  }
}

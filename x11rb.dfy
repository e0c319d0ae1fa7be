/**
 * The error types of the x11rb crate that the XCB backend converts into its own
 * error type. They are external to the repository; only their shapes are modelled.
 */
module X11Rb {

  /** An `std::io::Error`, kept opaque: only its identity is observable. */
  datatype IoError = IoError(code: int)

  /** An X11 protocol error reply, kept opaque. */
  datatype X11Error = X11Error(errorCode: nat, sequence: nat, badValue: nat)

  /** `x11rb::errors::ConnectionError`. */
  datatype ConnectionError =
    | UnknownError
    | UnsupportedExtension
    | MaximumRequestLengthExceeded
    | FDPassingFailed
    | ParseError
    | InsufficientMemory
    | IOError(io: IoError)

  /** `x11rb::errors::ReplyError`: what waiting for a reply can fail with. */
  datatype ReplyError =
    | ReplyConnectionError(err: ConnectionError)
    | ReplyX11Error(x11: X11Error)

  /** `x11rb::errors::ReplyOrIdError`: what `generate_id` can fail with. */
  datatype ReplyOrIdError =
    | IdsExhausted
    | IdConnectionError(err: ConnectionError)
    | IdX11Error(x11: X11Error)

  /**
   * The error one fallible x11rb call reports; which of the three types it is
   * decides which `From` conversion the `?` operator applies.
   */
  datatype XError =
    | Connection(connection: ConnectionError)
    | Reply(reply: ReplyError)
    | ReplyOrId(replyOrId: ReplyOrIdError)
}

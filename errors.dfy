/** The runtime error type of the library (`OSError`). */
module Errors {
  import X11Rb

  /**
   * The text of `OSError::Other`: a fixed message, or the `{:?}` rendering of an
   * x11rb error value, recorded as the value it renders.
   */
  datatype Message =
    | Text(text: string)
    | DebugX11(x11: X11Rb.X11Error)
    | DebugReplyOrId(replyOrId: X11Rb.ReplyOrIdError)

  datatype OSError =
    | Unknown
    | Parse
    | InsufficientMemory
    | IO(io: X11Rb.IoError)
    | Other(message: Message)
}

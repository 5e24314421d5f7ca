/** The outcome of a codec operation: a value, or the reason the source raises. */
module Results {

  /** Why an encoder or decoder gives up.  `Incomplete` is the one reason the read loop
      does not treat as fatal: more bytes may still complete the frame. */
  datatype CodecError =
    | Incomplete
    | UnknownFrameType
    | FrameTooLarge
    | FrameMaxTooSmall
    | BadFrameEnd
    | ChannelOutOfRange
    | Truncated
    | CeilingExceeded
    | DepthExceeded
    | UnsupportedTag
    | UnsupportedMethod
    | NotUtf8
    | StringTooLong
    | OutOfRange
    | WrongType

  datatype Option<+T> = None | Some(value: T)

  datatype Result<+T> = Ok(value: T) | Err(error: CodecError) {

    predicate IsFailure() {
      Err?
    }

    function PropagateFailure<U>(): Result<U>
      requires Err?
    {
      Err(error)
    }

    function Extract(): T
      requires Ok?
    {
      value
    }
  }
}

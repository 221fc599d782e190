/** Failure-compatible results and the causes of the exceptions the codecs raise. */
module Results {

  /** The value of a computation that may throw: `Ok` carries the value, `Err` the cause. */
  datatype Result<+T, +E> = Ok(value: T) | Err(error: E) {

    predicate IsFailure() {
      Err?
    }

    function PropagateFailure<U>(): Result<U, E>
      requires Err?
    {
      Err(error)
    }

    function Extract(): T
      requires Ok?
    {
      value
    }
  }

  datatype Option<+T> = None | Some(value: T)

  /** Which exception was raised while processing one line. */
  datatype Cause =
    | FormatError(token: string)              // int.Parse / float.Parse rejected the token
    | Overflow(token: string)                 // int.Parse: the value does not fit in 32 bits
    | IndexOutOfRange                         // a token, character or substring index past the end
    | UnknownName(name: string)               // Enum.Parse found no member of that name
    | NotEnoughTokens(stated: nat, got: nat)  // the message's "minimum <stated>, got <got>"
    | MissingObjectToken                      // "Object token expected but not found."
    | InvalidMode(mode: string)               // an unknown section name
    | InvalidObject(kind: string)             // an unknown object kind after `+`
    | InvalidEasing                           // an easing token of the wrong shape
    | ControlPointOutOfRange                  // a Bezier control point with x outside [0, 1]
    | NullReference                           // no current storyboard or no current lane
    | NewerVersion                            // the declared version exceeds FORMAT_VERSION

  /** The result of a token parser. */
  type Parsed<T> = Result<T, Cause>
}

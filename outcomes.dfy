/** Option and Result values, and the named failures the interface code can raise. */
module Outcomes {

  datatype Option<+T> = None | Some(value: T)

  /** Which attribute a setter was trying to change. */
  datatype Attribute = NameAttr | HwaddrAttr | StateAttr | ModeAttr | ChannelAttr | FlagAttr(flag: string)

  /** Why `__error_handler__` was called (the message it receives, without its text). */
  datatype Reason =
    | InvalidSetting
    | InvalidFlag(flag: string)
    | FlagNotSet(flag: string, current: seq<string>)
    | AlreadyInState(target: string)
    | StateNotReached(target: string, observed: Option<string>)

  /** The exceptions that escape an operation. */
  datatype Failure =
    | IndexError                        // a list index past the end of the token list
    | ValueError                        // a bad tuple unpacking or `int()` of a non-number
    | CalledProcessError                // a command exited non-zero, not wrapped
    | SystemCallError                   // a command exited non-zero, wrapped by the raising module
    | AttributeSetSilentFail(attr: Attribute) // the write succeeded but the re-read value did not change
    | UnsupportedFlag(flag: string)     // `Exception("Unsupported flag ...")`
    | AttributeError(missing: string)   // a lookup of a method the object does not have
    | UnboundLocal(variable: string)    // a local read before any assignment
    | Raised(reason: Reason)            // `Exception(msg)` raised by a strict error handler

  datatype Result<+T> = Ok(value: T) | Err(error: Failure) {
    predicate IsFailure() { Err? }

    function PropagateFailure<U>(): Result<U>
      requires Err?
    {
      Err(error)
    }

    function Extract(): T
      requires Ok?
    {
      value
    }

    /** The failure is an exception raised by a strict error handler. */
    predicate IsRaised() {
      Err? && error.Raised?
    }
  }
}

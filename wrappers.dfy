/** Option and Result values, and the exceptions the modelled Python code raises. */
module Wrappers {

  /** A value that may be absent: Python's `None` or a present value. */
  datatype Option<+T> = None | Some(value: T)

  /** The outcome of a call that may raise: its value, or the exception it raised. */
  datatype Result<+T, +E> = Ok(value: T) | Err(error: E)
}

module Errors {

  /** The Python exception classes raised along the modelled paths, with their messages. */
  datatype Error =
    | ValueError(msg: string)
    | FileNotFoundError(msg: string)
    | IndexError
    | AttributeError
    | UnboundLocalError
    | RuntimeError(msg: string)
    | TypeError(msg: string)
    | Exception(msg: string)
    /** raised inside library code the model does not see (OCR, rasteriser, OpenCV) */
    | Raised(msg: string)

  /**
   * `str(e)`: the message of an exception.  `AttributeError` is kept without the type name its
   * message would carry and is shown by its class name.
   */
  function Message(e: Error): string
  {
    match e
    case IndexError => "list index out of range"
    case AttributeError => "AttributeError"
    case UnboundLocalError => "cannot access local variable 'extracted_data' where it is not associated with a value"
    case _ => e.msg
  }
}

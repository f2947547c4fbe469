/** Option and Result, the failure-compatible wrappers used throughout the model,
    and the Python exceptions the modelled code can raise. */
module Wrappers {

  datatype Option<+T> = None | Some(value: T)

  datatype Result<+R, +E> = Success(value: R) | Failure(error: E) {
    predicate IsFailure() {
      Failure?
    }

    function PropagateFailure<U>(): Result<U, E>
      requires Failure?
    {
      Failure(error)
    }

    function Extract(): R
      requires Success?
    {
      value
    }
  }

  /** The Python exceptions raised by the modelled code paths. */
  datatype Exception =
    | KeyError(key: string)       // a session key read before it was ever written
    | ValueError                  // an enum lookup of a value that is no member, or int(s, 16) on a non-number
    | WrongType(key: string)      // a stored value of another type than the code calls methods on
    | NotImplementedError         // the image source of the configuration
    | ZeroDivisionError
    | DecodeError                 // a codec that could not decode the payload
    | ConversionError             // OpenCV's BGR to RGB conversion on an unsupported channel count
}

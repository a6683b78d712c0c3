/** The exceptions the downloader raises, and the failure-carrying wrappers
    that replace Python's raise/except control flow. */
module Errors {

  datatype Option<+T> = None | Some(value: T)

  /** One constructor per exception kind the modelled code can raise. */
  datatype Error =
    | RemoteFileDoesntExist(message: string)     // errors.py: remote file missing
    | IncorrectLandsat8SceneId(message: string)  // errors.py: malformed Landsat-8 id
    | USGSInventoryAccessMissing(message: string) // errors.py: USGS login refused
    | PlainException(message: string)            // a bare `raise Exception(...)`
    | TypeError(message: string)                 // raised by the Python runtime itself
    | IndexError                                 // list index out of range
    | KeyError(key: string)                      // missing dictionary key

  /** The value of a call that either returns or raises. */
  datatype Result<+T> = Success(value: T) | Failure(error: Error)

  /** The outcome of a call that returns nothing or raises. */
  datatype Outcome = Pass | Fail(error: Error)

  /** A Python argument that the callee checks with `isinstance(x, list)`. */
  datatype ListArg<+T> = List(items: seq<T>) | NotList
}

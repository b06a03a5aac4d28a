/** Failure-carrying values shared by every module of the model. */
module Wrappers {

  datatype Option<+T> = None | Some(value: T)

  datatype Result<+T, +E> = Success(value: T) | Failure(error: E)

  /** The Python exceptions the modelled code raises, catches or lets escape. */
  datatype PyException =
    | KeyError(key: string)
    | ValueError(literal: string)        // int() on a string it cannot parse
    | FormatError(spec: string)          // an f-string field whose format spec is invalid for str
    | IndexError                         // indexing an empty list
    | ApiError(reason: string)           // whatever a completion endpoint or its client library raises
    | JSONDecodeError(message: string)   // json.loads on text that is not JSON

  /** `str(e)` of an exception, as an f-string such as `f"Error: {e}"` renders it
      (the repr of a quoted string is simplified to single quotes without escaping). */
  function Describe(e: PyException): string
  {
    match e
    case KeyError(key) => "'" + key + "'"
    case ValueError(literal) => "invalid literal for int() with base 10: '" + literal + "'"
    case FormatError(spec) => "Invalid format specifier '" + spec + "' for object of type 'str'"
    case IndexError => "list index out of range"
    case ApiError(reason) => reason
    case JSONDecodeError(message) => message
  }

  /** The prefix of the error texts the scripts return instead of raising, as in `f"Error: {e}"`. */
  const ErrorPrefix: string := "Error: "

  /** The outcome of a Python call that either returns a value or raises. */
  datatype Call<+T> = Returned(value: T) | Raised(error: PyException)
}

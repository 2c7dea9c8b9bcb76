/** Option and Result values shared by every module of the model. */
module Wrappers {

  datatype Option<+T> = None | Some(value: T) {
    function GetOr(default: T): T {
      match this
      case Some(v) => v
      case None => default
    }
  }

  /** The Python exception a failing operation raises. */
  datatype PyError =
    | ValueError
    | KeyError
    | IndexError
    | TypeError
    | AttributeError
    | ZeroDivisionError
    | GenerationFailed

  datatype Result<+T> = Ok(value: T) | Err(error: PyError)
}

/** Failure-carrying values shared by every queue module.

    The Python code signals failures by raising exceptions of distinct
    classes; the model returns them as values so that a caller can tell them
    apart, exactly as the exception classes do. */
module Errors {

  datatype Option<+T> = None | Some(value: T) {
    function GetOr(default: T): T {
      match this
      case Some(v) => v
      case None => default
    }
  }

  /** The exception classes the modelled code raises or lets propagate. */
  datatype Error =
    | ValueError(message: string)
    | RuntimeError(message: string)
    | NameError(message: string)
    | FileExistsError(message: string)
    | FileNotFoundError(message: string)
    | NotADirectoryError(message: string)
    | IsADirectoryError(message: string)
    | PermissionError(message: string)
    | AttributeError(message: string)
    | ImportError(message: string)
    | IndexError
    | TypeError
    | ZeroDivisionError
    | CalledProcessError(command: seq<string>)

  datatype Result<+T> = Ok(value: T) | Err(error: Error) {
    predicate IsFailure() {
      Err?
    }

    function GetOr(default: T): T {
      if Ok? then value else default
    }
  }

  /** Outcome of an operation whose success carries no value. */
  datatype Outcome = Pass | Fail(error: Error)
}

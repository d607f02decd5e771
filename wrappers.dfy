/** Failure-compatible result and option types, and the exceptions the
    modelled Python code raises. */
module Wrappers {

  datatype Option<+T> = None | Some(value: T) {
    function GetOr(default: T): T {
      match this
      case Some(v) => v
      case None => default
    }
  }

  /** The exceptions raised by the modelled code. `ClipError` stands for an
      error that a VapourSynth filter raises when it is created with inputs
      it refuses (mismatched frame sizes, a blank clip of non-positive size). */
  datatype Error =
    | ValueError(message: string)
    | FormatError(message: string)
    | ZeroDivisionError
    | IndexError
    | TypeError
    | ClipError(message: string)

  datatype Result<+T> = Ok(value: T) | Err(error: Error) {
    predicate IsFailure() {
      Err?
    }

    function PropagateFailure<U>(): Result<U>
      requires Err?
    {
      Err(error)
    }

    function Extract(): T
      requires Ok?
    {
      value
    }
  }
}

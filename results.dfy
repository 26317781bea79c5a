/** Option and Result wrappers, and the Python exceptions the submission core can raise. */
module Results {

  datatype Option<+T> = None | Some(value: T) {
    function GetOr(default: T): T {
      match this
      case Some(v) => v
      case None => default
    }
  }

  /** The exceptions of database.py that the model keeps apart. */
  datatype Error =
    | ValueError(message: string)  // request without exactly five image paths
    | IndexError                   // `predictions[0]` on an empty prediction list
    | KeyError                     // a selected class index missing from the label table
    | NameError(name: string)      // an identifier that is used but never bound
    | ImageError(exception: string) // opening, resizing or classifying an existing file failed

  datatype Result<+R> = Ok(value: R) | Err(error: Error) {
    predicate IsFailure() {
      Err?
    }

    function PropagateFailure<U>(): Result<U>
      requires Err?
    {
      Err(error)
    }

    function Extract(): R
      requires Ok?
    {
      value
    }
  }
}

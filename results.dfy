/** Success/failure wrappers used for the Python exceptions the model keeps. */
module Results {

  datatype Option<+T> = None | Some(value: T) {
    function GetOr(default: T): T {
      match this
      case Some(v) => v
      case None => default
    }
  }

  /** The exceptions raised by the modelled code, by their Python class. */
  datatype Error =
    | KeyError
    | IndexError
    | ValueError
    | TypeError
    | FileNotFound
    | ClientError
    | AttributeError
    | RemindersCogError(message: string)

  datatype Result<+R> = Success(value: R) | Failure(error: Error)

  /** A command outcome that carries no value. */
  datatype Outcome = Pass | Fail(error: Error)
}

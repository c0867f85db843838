/**
 * The two error kinds of errors.js. Each is an `Error` subclass whose
 * constructor keeps the message it is given and sets a fixed `name`.
 */
module Errors {

  datatype AppError =
    | NotFoundError(message: string)
    | ValidationError(message: string)
  {
    /** The `name` property each constructor assigns. */
    function Name(): string {
      match this
      case NotFoundError(_) => "NotFoundError"
      case ValidationError(_) => "ValidationError"
    }
  }

  /** The two kinds never coincide, keep their message, and carry distinct fixed names. */
  lemma ErrorKinds(m: string, m': string)
    ensures NotFoundError(m) != ValidationError(m')
    ensures NotFoundError(m).message == m && ValidationError(m').message == m'
    ensures NotFoundError(m).Name() == "NotFoundError"
    ensures ValidationError(m').Name() == "ValidationError"
    ensures NotFoundError(m).Name() != ValidationError(m').Name()
  {
  }
}

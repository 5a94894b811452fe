/** Values and exceptions shared by the adapter and the console application. */
module Outcomes {

  /** PHP's "a string or null". */
  datatype Option<+T> = None | Some(value: T)

  /** The exceptions that leave the modelled code. */
  datatype Exception =
      /** A \RuntimeException raised by the modelled code itself (code 0 unless given). */
    | RuntimeException(message: string, code: int)
      /** An exception raised by an unseen collaborator that the modelled code lets through unchanged. */
    | Propagated(message: string)

  /** How a PHP call ends: it returns a value or it throws. */
  datatype Outcome<+T> = Returned(value: T) | Threw(exception: Exception)
}

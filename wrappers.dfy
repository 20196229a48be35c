/** Plain wrapper datatypes: Option stands for a Java reference that may be
    null, Result and Outcome for a call that may throw. */
module Wrappers {

  datatype Option<+T> = None | Some(value: T)

  /** The exceptions the modelled code throws itself. */
  datatype Error =
    | NullArgument(message: string)    // NullPointerException from Objects.requireNonNull
    | IllegalState(message: string)    // IllegalStateException

  datatype Result<+R> = Success(value: R) | Failure(error: Error)

  datatype Outcome = Pass | Fail(error: Error)
}

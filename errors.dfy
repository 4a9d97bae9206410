/** The failure taxonomy shared by the broker and its collaborators. */
module Errors {

  /** The nature of a failure; a caller decides whether to retry from the kind alone.
      Structural: the input itself is malformed. Behavioural: the input is well formed
      but matches no known entity. Operational: a downstream delivery went wrong. */
  datatype ErrorKind = Structural | Behavioural | Operational

  datatype Option<+T> = None | Some(value: T)

  /** A value, or the kind of the failure that prevented it. */
  datatype Result<+T> = Success(value: T) | Failure(error: ErrorKind)
}

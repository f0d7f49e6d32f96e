/** Failure-carrying values shared by the whole model. */
module Wrappers {

  datatype Option<+T> = None | Some(value: T) {
    function GetOr(default: T): T {
      match this
      case Some(v) => v
      case None => default
    }
  }

  /** The `Result` of a fallible collaborator (transport, PDF loader). */
  datatype Result<+T, +E> = Success(value: T) | Failure(error: E)

  /**
   * What an operation of the library ends with: a value, an error value the
   * caller receives, or a panic (an `expect`, `unwrap` or `panic!` reached in
   * the source), which ends the operation before any state is changed.
   */
  datatype Outcome<+T, +E> = Ok(value: T) | Err(error: E) | Panic(reason: string)
}

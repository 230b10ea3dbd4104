/** Failure-compatible wrappers and the error taxonomy shared by the settings engine. */
module Wrappers {

  datatype Option<+T> = None | Some(value: T)

  /** A success value or an error, like Rust's `Result`. */
  datatype Result<+T, +E> = Ok(value: T) | Err(error: E) {
    predicate IsFailure() { Err? }
    function PropagateFailure<U>(): Result<U, E> requires Err? { Err(error) }
    function Extract(): T requires Ok? { value }
  }

  /** The outcome of an operation that returns `Result<()>`. */
  datatype Outcome<+E> = Pass | Fail(error: E)

  /** The errors the core raises (anyhow messages in the source). */
  datatype Error =
    | ItemNotFound                 // "Item not found"
    | ManagerNotFound(id: int)     // "Setting manager not found for id: {id}"
    | Deserialize(reason: string)  // serde_json could not build the value
    | Io(reason: string)           // a file or directory operation failed
    | ItemFailure(reason: string)  // an error raised by an item's own receive
}

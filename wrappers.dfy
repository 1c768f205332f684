/**
 * Optional values and results. `Option` stands for a property that may be
 * `undefined` in the source; `Result` for an operation that may throw.
 */
module Wrappers {

  datatype Option<T> = None | Some(value: T)

  datatype Result<T> = Ok(value: T) | Err(error: string) {
    predicate IsFailure() {
      Err?
    }
  }
}

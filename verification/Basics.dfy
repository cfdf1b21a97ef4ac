/** Shared value types: an optional value, a result that is either a value or an error, and paths. */
module Basics {

  datatype Option<+T> = None | Some(value: T)

  datatype Result<+T, +E> = Ok(value: T) | Err(error: E)

  /** A path by its components. */
  type Path = seq<string>

  ghost predicate NoDuplicates<T>(s: seq<T>) {
    forall i, j | 0 <= i < j < |s| :: s[i] != s[j]
  }
}

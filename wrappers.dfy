/** Small wrappers and list facts shared by both applications. */
module Wrappers {

  /** Python's Optional / None. */
  datatype Option<+T> = None | Some(value: T)

  /** A value, or the exception the Python code would raise instead. */
  datatype Result<+T, +E> = Success(value: T) | Failure(error: E)

  /** Success without a value, or the exception raised. */
  datatype Outcome<+E> = Pass | Fail(error: E)

  /** No object occurs twice in a list. */
  ghost predicate Distinct<T>(s: seq<T>) {
    forall i, j :: 0 <= i < j < |s| ==> s[i] != s[j]
  }
}

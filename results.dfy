/** Failure-compatible values shared by every module of the model. */
module Results {

  datatype Option<+T> = None | Some(value: T)

  datatype Result<+T, +E> = Success(value: T) | Failure(error: E)

  /** What a Go call that returns `(T, error)` can end with: a value, an
      error (its `Error()` text), or a run-time panic that unwinds the caller. */
  datatype Outcome<+T> = Ok(value: T) | Err(message: string) | Panic
}

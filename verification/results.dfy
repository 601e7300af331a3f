/** Failure-aware wrappers used throughout the model.

    `Option` stands for a Python attribute that may be absent (`None`);
    `Result` stands for a computation that either returns a value or raises. */
module Results {

  /** A possibly-absent value: `None` is the source's absent marker. */
  datatype Option<+T> = None | Some(value: T)

  /** Either a value or the error that was raised instead. Usable with `:-`. */
  datatype Result<+T, +E> = Success(value: T) | Failure(error: E) {

    predicate IsFailure() {
      Failure?
    }

    function PropagateFailure<U>(): Result<U, E>
      requires Failure?
    {
      Failure(error)
    }

    function Extract(): T
      requires Success?
    {
      value
    }
  }
}

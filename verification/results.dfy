/** Failure-compatible wrappers used throughout the model: `Option` for values
    that may be absent and `Result` for computations that may throw. Both work
    with Dafny's `:-` operator, which plays the part of JavaScript's implicit
    exception propagation. */
module Results {

  datatype Option<+T> = None | Some(value: T)

  datatype Result<+T, +E> = Success(value: T) | Failure(error: E) {

    predicate IsFailure() {
      Failure?
    }

    function PropagateFailure<U>(): Result<U, E>
      requires Failure?
    {
      Failure(error)
    }

    function Extract(): T
      requires Success?
    {
      value
    }
  }
}

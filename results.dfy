/** Optional values and failure-compatible results used throughout the model. */
module Results {

  /** An attribute that may be missing: `None` stands for Python's `None`
      (or, where a field comment says so, for an attribute the node lacks). */
  datatype Option<+T> = None | Some(value: T)

  /** The outcome of a computation that may raise; usable with `:-`. */
  datatype Result<+T, +E> = Ok(value: T) | Err(error: E) {

    predicate IsFailure() {
      Err?
    }

    function PropagateFailure<U>(): Result<U, E>
      requires Err?
    {
      Err(error)
    }

    function Extract(): T
      requires Ok?
    {
      value
    }
  }
}

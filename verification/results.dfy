/** Failure-compatible wrappers standing in for Python's "returns a value"
    versus "raises".  `Result` works with `:-`, so a chain of reads that may
    each raise is written as a chain of `var x :- …;` steps. */
module Results {

  datatype Option<+T> = None | Some(value: T)

  datatype Result<+T, +E> = Ok(value: T) | Err(error: E) {

    predicate IsFailure() {
      Err?
    }

    function PropagateFailure<U>(): Result<U, E>
      requires Err?
    {
      Err(error)
    }

    function Extract(): T
      requires Ok?
    {
      value
    }
  }
}

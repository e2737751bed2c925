/** Option and Result: the model's stand-ins for Java's nullable references
    and for a value-or-thrown-exception. */
module Wrappers {

  /** A nullable reference: `None` is Java's `null`. */
  datatype Option<+T> = None | Some(value: T)

  /** Either a value or the exception that was raised instead. */
  datatype Result<+R, +E> = Success(value: R) | Failure(error: E) {

    predicate IsFailure() {
      Failure?
    }

    function PropagateFailure<U>(): Result<U, E>
      requires Failure?
    {
      Failure(error)
    }

    function Extract(): R
      requires Success?
    {
      value
    }
  }

  /** Java's `StringHelper.hasText`: non-null and non-empty. */
  predicate HasText(s: Option<string>) {
    s.Some? && |s.value| > 0
  }
}

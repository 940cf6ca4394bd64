/** Results that may be missing or failed. */
module Wrappers {

  /** An absent or present value; usable with `:-`. */
  datatype Option<+T> = None | Some(value: T) {
    predicate IsFailure() { None? }

    function PropagateFailure<U>(): Option<U>
      requires None?
    {
      None
    }

    function Extract(): T
      requires Some?
    {
      value
    }
  }

  /** The outcome of an operation the source may reject by throwing. */
  datatype Result<+T, +E> = Ok(value: T) | Err(error: E)
}

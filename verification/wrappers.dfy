/** Option and the outcome of an operation that can raise. */
module Wrappers {

  /** An optional value: `None` stands for Python's `None` argument. */
  datatype Option<T> = None | Some(value: T)

  /** The outcome of an operation that can raise. */
  datatype Outcome<E> = Pass | Fail(error: E)
}

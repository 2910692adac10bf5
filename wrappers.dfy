/** Option and Result values, shared by every module of the model. */
module Wrappers {

  /** Swift's `Optional`; the absent case is spelled `Nil` as Swift spells it `nil`. */
  datatype Option<+T> = Nil | Some(value: T)

  /** Success or failure; supports `:-` so that a chain of throwing calls reads like Swift's `try`. */
  datatype Result<+T, +E> = Ok(value: T) | Err(error: E) {

    predicate IsFailure() {
      Err?
    }

    function PropagateFailure<U>(): Result<U, E>
      requires Err?
    {
      Err(error)
    }

    function Extract(): T
      requires Ok?
    {
      value
    }
  }
}

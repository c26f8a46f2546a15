/** Option for JavaScript's `undefined`, Result for a value or a thrown Error. */
module Wrappers {

  datatype Option<+T> = None | Some(value: T)

  /** A computation that returns a value or throws an Error carrying `message`. */
  datatype Result<+T> = Ok(value: T) | Err(message: string) {

    predicate IsFailure() {
      Err?
    }

    function PropagateFailure<U>(): Result<U>
      requires Err?
    {
      Err(message)
    }

    function Extract(): T
      requires Ok?
    {
      value
    }
  }
}

/** Optional values, results that may carry an error, and places in a sequence. */
module Basics {

  datatype Option<+T> = None | Some(value: T)

  datatype Result<+T, +E> = Ok(value: T) | Err(error: E) {
    predicate IsFailure() { Err? }
    function PropagateFailure<U>(): Result<U, E>
      requires Err?
    {
      Err(error)
    }
    function Extract(): T
      requires Ok?
    {
      value
    }
  }

  /** The pattern stands at place `i` of the text. */
  predicate At<T(==)>(text: seq<T>, i: nat, pattern: seq<T>) {
    i + |pattern| <= |text| && text[i..i + |pattern|] == pattern
  }
}

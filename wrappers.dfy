/** Optional values, results, and the Python exceptions the modelled code raises. */
module Wrappers {

  datatype Option<+T> = None | Some(value: T)

  /** The exceptions of the genealogy engine, as values. */
  datatype Error =
    | ValueError
    | KeyError
    | IndexError
    | TypeError
    | AttributeError
    | OverflowError
    | UnboundLocalError
    | PersonWithoutBirthdayError
    | UnknownDirectionError
    | WithoutRelationsError

  datatype Result<+T> = Ok(value: T) | Err(error: Error) {
    predicate IsFailure() { Err? }

    function PropagateFailure<U>(): Result<U>
      requires Err?
    {
      Err(error)
    }

    function Extract(): T
      requires Ok?
    {
      value
    }
  }

  /** Concatenation is associative. */
  lemma ConcatAssoc<T>(x: seq<T>, y: seq<T>, z: seq<T>)
    ensures (x + y) + z == x + (y + z)
  {
  }

  /** The empty sequence is a unit of concatenation. */
  lemma ConcatEmpty<T>(x: seq<T>)
    ensures x + [] == x && [] + x == x
  {
  }

  /** Taking the whole sequence gives it back. */
  lemma TakeAll<T>(x: seq<T>)
    ensures x[..|x|] == x
  {
  }
}

/** Option and Result, the Python exception kinds the writers can raise, and
    Python's list indexing (which accepts negative indices). */
module Wrappers {

  datatype Option<+T> = None | Some(value: T)

  /** The Python exceptions the writers raise on malformed input. */
  datatype Error =
    | IndexError      // list index out of range
    | KeyError        // missing attribute in an element's attrib dict
    | AttributeError  // attribute access on None or on an object that lacks it
    | TypeError       // str.join over a None
    | ValueError      // int() of a non-numeral, or an unsupported input object
    | NameError       // a local variable read before any branch assigned it

  datatype Result<+T> = Success(value: T) | Failure(error: Error) {
    predicate IsFailure() { Failure? }

    function PropagateFailure<U>(): Result<U>
      requires Failure?
    {
      Failure(error)
    }

    function Extract(): T
      requires Success?
    {
      value
    }
  }

  /** `s[i]` as Python evaluates it: a negative index counts from the end. */
  function PyAt<T>(s: seq<T>, i: int): (r: Result<T>)
    ensures r.Success? <==> -|s| <= i < |s|
    ensures 0 <= i < |s| ==> r == Success(s[i])
    ensures -|s| <= i < 0 ==> r == Success(s[|s| + i])
    ensures r.Failure? ==> r.error == IndexError
  {
    if 0 <= i < |s| then Success(s[i])
    else if -|s| <= i < 0 then Success(s[|s| + i])
    else Failure(IndexError)
  }
}

/** Option and Result, the failure-compatible wrappers the rest of the model
    uses for Java's exceptions, plus one helper that prepends output already
    produced to the result of the rest of a computation. */
module Wrappers {

  datatype Option<+T> = None | Some(value: T)

  datatype Result<+T, +E> = Success(value: T) | Failure(error: E) {

    predicate IsFailure() {
      Failure?
    }

    function PropagateFailure<U>(): Result<U, E>
      requires Failure?
    {
      Failure(error)
    }

    function Extract(): T
      requires Success?
    {
      value
    }
  }

  /** The outcome of a scan that has already produced `done` and whose
      remainder yields `rest`: an exception in the remainder discards
      everything, as an uncaught Java exception does. */
  function Prefixed<T, E>(done: seq<T>, rest: Result<seq<T>, E>): (r: Result<seq<T>, E>)
    ensures r.Success? <==> rest.Success?
    ensures r.Success? ==> r.value == done + rest.value
    ensures r.Failure? ==> r.error == rest.error
  {
    match rest
    case Success(s) => Success(done + s)
    case Failure(e) => Failure(e)
  }

  lemma AppendAssoc<T>(a: seq<T>, b: seq<T>, c: seq<T>)
    ensures (a + b) + c == a + (b + c)
  {
  }

  lemma PrefixedNothing<T, E>(rest: Result<seq<T>, E>)
    ensures Prefixed([], rest) == rest
  {
    match rest
    case Success(s) => assert [] + s == s;
    case Failure(_) =>
  }

  lemma PrefixedTwice<T, E>(a: seq<T>, b: seq<T>, rest: Result<seq<T>, E>)
    ensures Prefixed(a, Prefixed(b, rest)) == Prefixed(a + b, rest)
  {
    match rest
    case Success(s) => assert a + (b + s) == (a + b) + s;
    case Failure(_) =>
  }
}

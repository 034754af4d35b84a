/** Failure-carrying values shared by the modules of this model. */
module Wrappers {

  datatype Option<+T> = None | Some(value: T)

  datatype Result<+T, +E> = Success(value: T) | Failure(error: E)

  /** The pair `(value, error)` a Go function of type `func(...) (*T, error)`
      returns. Either half may be nil, and nothing stops a caller-supplied
      implementation from setting both, so both are kept. An error is
      represented by its `Error()` text. */
  datatype Returned<+T> = Returned(value: Option<T>, err: Option<string>)

  /** The pair returned by a Go function that sets exactly one half. */
  function FromResult<T>(r: Result<T, string>): (p: Returned<T>)
    ensures p.err.Some? <==> r.Failure?
    ensures p.value.Some? <==> r.Success?
    ensures r.Success? ==> p.value.value == r.value
    ensures r.Failure? ==> p.err.value == r.error
  {
    match r
    case Success(v) => Returned(Some(v), None)
    case Failure(e) => Returned(None, Some(e))
  }
}

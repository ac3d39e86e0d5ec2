/** Optional values and results shared by every module of the model. */
module Wrappers {
  /** A value that may be absent (JavaScript `null` / `undefined`). */
  datatype Option<T> = None | Some(value: T)
  {
    function GetOr(default: T): (r: T)
      ensures this.Some? ==> r == this.value
      ensures this.None? ==> r == default
    {
      match this
      case None => default
      case Some(v) => v
    }
  }

  /** The outcome of an operation that either yields a value or throws an error. */
  datatype Result<T, E> = Ok(value: T) | Err(error: E)
  {
    predicate IsFailure() { this.Err? }
  }
}

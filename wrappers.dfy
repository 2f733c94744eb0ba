/** Option and Result: `undefined`/`null` returns and thrown errors of the source. */
module Wrappers {

  datatype Option<+T> = None | Some(value: T)

  datatype Result<+R, +E> = Success(value: R) | Failure(error: E)

  /** A partial-update field: the supplied value, or the current one when the field was not supplied. */
  function Pick<T>(supplied: Option<T>, current: T): (r: T)
    ensures supplied.None? ==> r == current
    ensures supplied.Some? ==> r == supplied.value
  {
    if supplied.Some? then supplied.value else current
  }
}

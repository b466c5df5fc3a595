/** Failure-compatible wrappers used across the model: an optional value,
    a value-or-error, and a pass-or-error outcome (the shape of a
    `Promise<void>` that either resolves or rejects). */
module Wrappers {

  datatype Option<+T> = None | Some(value: T)

  datatype Result<+T, +E> = Success(value: T) | Failure(error: E)

  datatype Outcome<+E> = Pass | Fail(error: E)

  /** `Pass` when there is no error, `Fail(e)` when there is one. */
  function OutcomeOf<E>(e: Option<E>): (r: Outcome<E>)
    ensures r.Pass? <==> e.None?
    ensures r.Fail? ==> r.error == e.value
  {
    match e
    case None => Pass
    case Some(err) => Fail(err)
  }
}

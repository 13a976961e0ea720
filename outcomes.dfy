/** Failure-aware results shared by the whole model. */
module Outcomes {

  /** A value that may be missing (Python: an operation that raised). */
  datatype Option<+T> = None | Some(value: T)

  /** The error kinds the budget tracker signals, by printing or by raising. */
  datatype Error =
    | CategoryNotFound     // the name is not a category
    | DuplicateCategory    // the name is already a category
    | FileNotFound         // FileNotFoundError on open
    | DecodeError          // json.JSONDecodeError on json.load
    | MalformedDocument    // KeyError, TypeError, ValueError or AttributeError while reading the document
    | DateOutOfRange       // OverflowError from date arithmetic past date.max

  /** The outcome of an operation that yields a value or fails. */
  datatype Result<+T> = Ok(value: T) | Err(error: Error)

  /** A missing value reported as error `e`. */
  function OkOr<T>(o: Option<T>, e: Error): (r: Result<T>)
    ensures r.Ok? <==> o.Some?
    ensures r.Ok? ==> r.value == o.value
    ensures r.Err? ==> r.error == e
  {
    match o
    case None => Err(e)
    case Some(v) => Ok(v)
  }

  /** The outcome of an operation that only changes state. */
  datatype Status = Done | Failed(error: Error)
}

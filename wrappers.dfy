// Option and Result values shared by every module of the model.
module Wrappers {

  /** A value that may be absent: JavaScript `null`/`undefined`, or a Java `null` reference. */
  datatype Option<T> = None | Some(value: T)
  {
    function GetOr(default: T): T
    {
      match this
      case None => default
      case Some(v) => v
    }
  }

  /** The outcome of an operation that either yields a value or fails with a message
    * (a thrown exception, or a rejected promise, carrying that message). */
  datatype Result<T> = Ok(value: T) | Err(msg: string)
  {
    predicate IsFailure()
    {
      Err?
    }
  }

  /** The unit value, for operations whose only content is success or failure. */
  datatype Unit = Unit
}

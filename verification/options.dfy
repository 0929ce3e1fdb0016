/** Failure-carrying wrappers used by the lookups of the model. */
module Options {

  /** A value that may be absent: the model's counterpart of `undefined`. */
  datatype Option<+T> = None | Some(value: T) {

    /** The carried value, or `default` when there is none (the `??` operator). */
    function GetOr(default: T): (r: T)
      ensures Some? ==> r == value
      ensures None? ==> r == default
    {
      match this
      case Some(v) => v
      case None => default
    }
  }

  /** The outcome of an operation that may throw: a value or the thrown message. */
  datatype Result<+T, +E> = Ok(value: T) | Err(error: E)
}

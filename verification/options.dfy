/** Optional values, and the outcome of code that may throw, shared by the other modules. */
module Options {

  /** A value that may be missing: JavaScript's `undefined` / `null`. */
  datatype Option<+T> = None | Some(value: T) {

    /** The wrapped value, or `default` when there is none. */
    function GetOr(default: T): T {
      match this
      case Some(v) => v
      case None => default
    }
  }

  /** The outcome of a JavaScript expression that may throw: either its value
      or the kind of error thrown. */
  datatype Result<+T> = Ok(value: T) | Thrown(error: string)
}

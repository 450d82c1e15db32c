/** Optional values (JavaScript's `undefined`/`null` or an absent key) and results with an error. */
module Wrappers {

  datatype Option<+T> = None | Some(value: T) {
    /** The value, or `default` when there is none (JavaScript's `x ?? default`). */
    function GetOr(default: T): T {
      match this
      case Some(v) => v
      case None => default
    }
  }

  /** Object spread on one optional key: `{...{k: a}, ...{k: b}}` keeps `b` when it is present. */
  function Over<T>(a: Option<T>, b: Option<T>): Option<T> {
    if b.Some? then b else a
  }

  datatype Result<+T, +E> = Ok(value: T) | Err(error: E)
}

/** Optional values: PHP's nullable values (`?string`, `?int`, `?array`) and the
    services' "null on failure" returns. */
module Wrappers {

  datatype Option<+T> = None | Some(value: T) {

    /** The value, or a default: PHP's `$x ?? $default`. */
    function GetOr(default: T): T {
      match this
      case Some(v) => v
      case None => default
    }
  }

  /** The answer of a call into another service: its value, its null (a
      failure it handled itself), or an exception it let escape. */
  datatype Fetch<T> = Fetched(value: T) | FetchFailed | Threw
}

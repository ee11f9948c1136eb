/** Optional values: a session without a user, a request body without a
    query, and the NULL that SQL's SUM returns over no rows. */
module Wrappers {

  datatype Option<+T> = None | Some(value: T) {

    /** The encapsulated value, or `default` when there is none (Python's `x or default`
        for the values this model uses). */
    function GetOr(default: T): T {
      match this
      case Some(v) => v
      case None => default
    }
  }
}

/** An optional value: the request-body fields that a handler reads with
    `body.get(key, None)` are `None` when the key is missing or holds JSON null. */
module Wrappers {

  datatype Option<+T> = None | Some(value: T) {

    /** The value carried by Some, or the given default for None. */
    function GetOr(default: T): T {
      match this
      case Some(v) => v
      case None => default
    }
  }
}

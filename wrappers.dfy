/** The optional value used wherever the source has a value that may be missing
    (a JavaScript `undefined` field, a Python `dict.get` with no default). */
module Wrappers {

  datatype Option<+T> = None | Some(value: T) {

    /** The value inside `Some`, or `default` for `None`. */
    function GetOr(default: T): T {
      match this
      case Some(v) => v
      case None => default
    }
  }
}

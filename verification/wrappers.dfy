/** The optional-value datatype used wherever the client reads a field that
    may be `undefined` or `null`, or looks something up that may be absent. */
module Wrappers {

  datatype Option<+T> = None | Some(value: T) {

    /** The wrapped value, or `default` when there is none. */
    function GetOr(default: T): T {
      match this
      case Some(v) => v
      case None => default
    }
  }

  /** The outcome of a backend call as the client sees it: a reply whose
      `success` flag is set, with its data, or anything else (a failed reply,
      a network error, an unparsable body). */
  datatype Reply<+T> = Succeeded(data: T) | Failed
}

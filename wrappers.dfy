/** The optional value used for the computations that can fail: a Big.js
    operation that throws, or a JavaScript number that is not finite. */
module Wrappers {

  datatype Option<+T> = None | Some(value: T) {

    /** The value, or `default` when there is none. */
    function GetOr(default: T): T {
      if Some? then value else default
    }
  }
}

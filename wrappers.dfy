/** Small value wrappers shared by the other modules. */
module Wrappers {

  /** A value that may be absent (a JavaScript `undefined` / `null` / failed lookup). */
  datatype Option<+T> = None | Some(value: T) {

    function GetOr(default: T): T {
      match this
      case Some(v) => v
      case None => default
    }
  }
}

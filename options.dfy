/** An optional value, for the fields that the front end receives as possibly `undefined`. */
module Options {

  datatype Option<+T> = None | Some(value: T) {

    /** The value if present, otherwise the given default (JavaScript's `x ?? default`). */
    function GetOr(default: T): T {
      match this
      case Some(v) => v
      case None => default
    }
  }
}

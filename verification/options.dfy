/** The optional value used for the editor's three image slots, which hold
    either an image buffer or Python's `None`, and for library calls that
    either return a value or raise. */
module Options {

  datatype Option<+T> = None | Some(value: T) {

    /** The wrapped value, or `default` when there is none. */
    function GetOr(default: T): T {
      match this
      case Some(v) => v
      case None => default
    }

    /** This value when there is one, and `other` otherwise. */
    function OrElse(other: Option<T>): Option<T> {
      if Some? then this else other
    }
  }
}

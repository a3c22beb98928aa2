/** The optional-value datatype used throughout the model for elements and
    attributes that may be absent (`null` / `undefined` in the services). */
module Wrappers {

  datatype Option<+T> = None | Some(value: T) {

    /** The value if present, otherwise `default` (JavaScript's `x || default`
        where the absent case is the only falsy one). */
    function GetOr(default: T): T {
      match this
      case Some(v) => v
      case None => default
    }
  }
}

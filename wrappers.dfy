/** Option, the stand-in for Python's `None`-or-value. */
module Wrappers {
  datatype Option<+T> = None | Some(value: T) {
    function GetOr(default: T): T {
      match this
      case Some(v) => v
      case None => default
    }
  }

  /** A setting that is present and non-empty: Python's truthiness of an optional string. */
  predicate Given(x: Option<string>) {
    x.Some? && x.value != ""
  }
}

/** The optional-value datatype used throughout the model (JavaScript's
    `null`/`undefined`/`NaN` outcomes become `None`). */
module Wrappers {

  datatype Option<+T> = None | Some(value: T) {

    /** Returns the value held in Some, or `default` when None. */
    function GetOr(default: T): T {
      match this
      case Some(v) => v
      case None => default
    }
  }
}

/** Kotlin's nullable values (`T?`) as an `Option`. */
module Wrappers {

  datatype Option<+T> = None | Some(value: T) {

    /** Kotlin's `?:` (elvis): the value, or `default` when it is null. */
    function OrElse(default: T): T {
      match this
      case Some(v) => v
      case None => default
    }
  }
}

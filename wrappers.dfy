/** Kotlin's nullable types (`T?`) are modelled as Option<T>. */
module Wrappers {

  datatype Option<+T> = None | Some(value: T) {

    /** The Elvis operator `this ?: default`. */
    function GetOr(default: T): T {
      match this
      case Some(v) => v
      case None => default
    }

    /** The Elvis operator with a nullable right-hand side, `this ?: other`. */
    function OrElse(other: Option<T>): Option<T> {
      match this
      case Some(_) => this
      case None => other
    }
  }
}

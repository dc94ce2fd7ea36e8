/** Swift's `Optional` and `throws` as values. */
module Wrappers {

  /** `T?` in the app: `nil` is None. */
  datatype Option<+T> = None | Some(value: T) {

    /** `self ?? default` */
    function GetOr(default: T): T {
      match this
      case Some(v) => v
      case None => default
    }
  }

  /** The outcome of a throwing Swift call: the returned value or the thrown error. */
  datatype Result<+R, +E> = Success(value: R) | Failure(error: E)
}

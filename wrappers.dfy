/** Optional values and success/failure results, the shapes Swift's `Optional`
    and RxSwift's `Single` outcomes take in this model. */
module Wrappers {

  datatype Option<+T> = None | Some(value: T) {
    /** Swift's `x ?? default`. */
    function GetOr(default: T): T {
      match this
      case Some(v) => v
      case None => default
    }
  }

  /** The outcome a `Single` delivers to its subscriber: `.success` or `.failure`. */
  datatype Result<+T, +E> = Success(value: T) | Failure(error: E)
}

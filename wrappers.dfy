/** Optional values and results, the Dafny counterparts of Swift's `T?` and of a
    `throws` function's two outcomes. */
module Wrappers {

  /** Swift's `Optional<T>`: `nil` or a wrapped value. */
  datatype Option<+T> = None | Some(value: T) {

    /** `self ?? default` */
    function GetOr(default: T): T {
      match this
      case Some(v) => v
      case None => default
    }
  }

  /** The outcome of a Swift function declared `throws`: a returned value or a thrown error. */
  datatype Result<+R, +E> = Success(value: R) | Failure(error: E)
}

/** Optional values: Kotlin's nullable `T?`. */
module Wrappers {

  datatype Option<+T> = None | Some(value: T) {

    /** `this ?: default` */
    function GetOr(default: T): T {
      match this
      case Some(v) => v
      case None => default
    }
  }

  /** `list?.let { addAll(it) }`: a null list contributes nothing. */
  function OrEmpty<T>(s: Option<seq<T>>): seq<T> {
    match s
    case Some(v) => v
    case None => []
  }
}

/** Optional values: the model's stand-in for Go's nil pointers, nil interfaces and `(value, ok)` pairs. */
module Options {

  datatype Option<+T> = None | Some(value: T) {

    /** The wrapped value, or `default` when there is none. */
    function GetOr(default: T): T {
      match this
      case Some(v) => v
      case None => default
    }
  }
}

/** An optional value: a TypeScript field declared with `?`, or a value that may be `undefined`. */
module Options {

  datatype Option<T> = None | Some(value: T) {

    /** The value, or `default` when it is absent (the `x || default` and `x ?? default` idioms). */
    function GetOr(default: T): T {
      match this
      case Some(v) => v
      case None => default
    }
  }
}

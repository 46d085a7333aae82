/** A value that may be absent: the model's reading of TypeScript's `T | null`
    and of an optional property left `undefined`. */
module Optional {

  datatype Option<+T> = None | Some(value: T) {

    /** The value, or `default` when absent: the `?? default` operator and a
        destructuring default. */
    function GetOr(default: T): T {
      match this
      case Some(v) => v
      case None => default
    }
  }
}

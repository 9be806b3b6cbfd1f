/** Small value types shared by the whole model. */
module Common {

  /** An optional value: a JSON key that may be absent, or Python's `None`. */
  datatype Option<+T> = None | Some(value: T) {

    /** The value, or `default` when absent (Python's `d.get(key, default)`). */
    function GetOr(default: T): T
    {
      match this
      case Some(v) => v
      case None => default
    }
  }
}

/** JavaScript's optional properties (`x?: T`) and nullable state (`T | null`). */
module Optional {

  datatype Option<T> = None | Some(value: T) {

    /** The carried value, or `default` when there is none. */
    function GetOr(default: T): T {
      match this
      case Some(v) => v
      case None => default
    }
  }
}

/** The nullable values of the source (`T?`) as an explicit option type. */
module Optional {

  datatype Option<+T> = None | Some(value: T) {

    /** Kotlin's elvis operator `x ?: default`. */
    function OrElse(default: T): T {
      match this
      case Some(v) => v
      case None => default
    }
  }
}

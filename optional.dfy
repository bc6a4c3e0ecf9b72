/** The absent-or-present value used for PHP's nullable parameters and lookups. */
module Optional {

  datatype Option<+T> = None | Some(value: T) {

    /** PHP's `$x ?? $default` for a nullable argument. */
    function GetOr(default: T): T
    {
      match this
      case Some(v) => v
      case None => default
    }
  }
}

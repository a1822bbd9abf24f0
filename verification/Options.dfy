module Options {

  /** A value that may be missing: the source's None. */
  datatype Option<+T> = None | Some(value: T) {
    function GetOr(other: T): T {
      if Some? then value else other
    }
  }
}

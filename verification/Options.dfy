/** A value that may be absent: JavaScript's `undefined`, SQL's NULL. */
module Options {
  datatype Option<+T> = None | Some(value: T) {
    function GetOr(fallback: T): T {
      if Some? then value else fallback
    }
  }
}

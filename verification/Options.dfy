/** A value that may be missing: null, undefined, or a caller's choice to say nothing. */
module Options {
  datatype Option<+T> = None | Some(value: T) {
    function GetOr(default: T): T {
      if Some? then value else default
    }
  }
}

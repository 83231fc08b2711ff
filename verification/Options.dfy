/** A value that may be absent: a null slot, or GST_CLOCK_TIME_NONE. */
module Options {
  datatype Option<+T> = None | Some(value: T) {
    function GetOr(default: T): T {
      if Some? then value else default
    }
  }
}

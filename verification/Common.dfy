/** Result types shared by the other modules. */
module Common {
  datatype Option<+T> = None | Some(value: T) {
    function GetOr(default: T): T { if None? then default else value }
  }

  datatype Result<+T, +E> = Ok(value: T) | Err(error: E)
}

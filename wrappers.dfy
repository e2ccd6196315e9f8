/// Optional values and results with an error message, used wherever the C code
/// signals absence with a return code or aborts with a message and `exit(1)`.
module Wrappers {
  datatype Option<+T> = None | Some(value: T)
  {
    function GetOr(default: T): (r: T)
      ensures Some? ==> r == value
      ensures None? ==> r == default
    {
      if Some? then value else default
    }
  }

  datatype Result<+T> = Ok(value: T) | Err(msg: string)
}

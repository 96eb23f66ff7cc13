/** Small types shared by every module. */
module Common {
  datatype Option<+T> = None | Some(value: T) {
    function GetOr(default: T): T {
      if Some? then value else default
    }
  }

  datatype Result<+T, +E> = Ok(value: T) | Err(error: E)

  type byte = b: int | 0 <= b < 256

  /** 0/1 indicator, so that "exactly one of" can be written as a sum. */
  function Ind(b: bool): nat {
    if b then 1 else 0
  }

  /** What a loop returns that has collected `done` and would go on to return `r`. */
  ghost function Onto<T, E>(done: seq<T>, r: Result<seq<T>, E>): Result<seq<T>, E> {
    match r
    case Err(e) => Err(e)
    case Ok(rest) => Ok(done + rest)
  }
}

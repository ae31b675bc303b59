/** Optional and fallible values shared by every module. */
module Wrappers {
  datatype Option<+T> = None | Some(value: T)

  datatype Result<+T, +E> = Ok(value: T) | Err(error: E)
}

/** One nondecreasing clock, in microseconds. JWT claims and denylist cutoffs
    truncate it to whole seconds; every other deadline keeps its full precision. */
module Clock {
  const SECOND: nat := 1_000_000

  function Sec(t: nat): nat { t / SECOND }
}

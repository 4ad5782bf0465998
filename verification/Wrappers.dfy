/** Small things every component uses. */
module Wrappers {

  datatype Option<+T> = None | Some(value: T)

  // What a condition adds to a counter.
  function One(b: bool): nat {
    if b then 1 else 0
  }
}

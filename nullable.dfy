/** JavaScript's `null` for a value that may be absent: a pending call outcome,
    a missing winner, a cleared error message. */
module Nullable {

  datatype Option<+T> = None | Some(value: T)

}

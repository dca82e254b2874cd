/** Option, used for values that may be absent: a missing JSON member, a missing join
    partner, or a pandas cell that holds NaN or an infinity. */
module Wrappers {

  datatype Option<+T> = None | Some(value: T)
}

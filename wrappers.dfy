/** The optional value used for an absent wake-up and an unbounded maximum delay. */
module Wrappers {
  datatype Option<+T> = None | Some(value: T)
}

/**
 * The optional value used where the formulas divide by a quantity that may
 * be zero: `None` stands for the NaN or Infinity that floating-point division
 * produces there.
 */
module Wrappers {

  datatype Option<+T> = None | Some(value: T)
}

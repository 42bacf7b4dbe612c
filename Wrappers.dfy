/** The optional value used throughout the model: `None` stands for a
    JavaScript `undefined`, or for `NaN` where a number is meant. */
module Wrappers {
  datatype Option<+T> = None | Some(value: T)
}

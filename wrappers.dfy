/** An optional value: `None` stands for C#'s and JavaScript's `null`, or for
    the `NaN` of a failed `parseInt`. */
module Wrappers {
  datatype Option<+T> = None | Some(value: T)
}

/** An optional value: `None` stands for a number that failed to parse (JavaScript's NaN)
    or for a result that has not been computed yet (JavaScript's null). */
module Wrappers {
  datatype Option<+T> = None | Some(value: T)
}

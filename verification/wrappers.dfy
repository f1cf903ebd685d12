/** An optional value, used throughout the model. */
module Wrappers {

  /** Some value, or none: a C# null reference, a missing key, a payload that does not parse. */
  datatype Option<+T> = None | Some(value: T)
}

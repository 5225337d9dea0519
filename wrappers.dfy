/** The optional value used where the C# object has a nullable reference. */
module Wrappers {
  datatype Option<+T> = None | Some(value: T)
}

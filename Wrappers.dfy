/** A C# string reference that may be null is an Option of a character sequence. */
module Wrappers {

  datatype Option<+T> = None | Some(value: T)

  /** `string.IsNullOrEmpty` of .NET. */
  predicate IsNullOrEmpty(s: Option<string>)
  {
    s.None? || s.value == []
  }
}

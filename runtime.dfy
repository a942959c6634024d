/** The small part of the .NET runtime that the logger's behaviour depends on:
    null references, the exceptions a logging call can end with, and the
    textual form of an arbitrary object. */
module Runtime {

  /** A reference that may be null. */
  datatype Option<+T> = None | Some(value: T)

  /** The exceptions a logging call can end with in this model. */
  datatype Fault =
    | NullPath       // a FileStream opened on a null path
    | KeyNotFound    // a dictionary lookup of an absent key
    | NullReference  // a method called on a null object

  /** How a call ends: normally, or by throwing. */
  datatype Outcome = Done | Thrown(fault: Fault)

  /** An argument of static type `object`: either null, or an object whose
      `ToString()` override returns the given (possibly null) string. */
  datatype ObjectValue = Null | Instance(text: Option<string>)

  /** String interpolation (`$"{s}"`) renders a null string as nothing. */
  function Interpolate(s: Option<string>): string
  {
    match s
    case Some(v) => v
    case None => ""
  }

  /** The null-coalescing operator `s ?? fallback`. */
  function Coalesce(s: Option<string>, fallback: string): string
  {
    match s
    case Some(v) => v
    case None => fallback
  }
}

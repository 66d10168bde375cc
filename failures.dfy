/** Outcomes of operations that can throw in the modelled Java code.
    Each Java exception the core can raise is named by its class. */
module Failures {

  /** The Java exceptions that the modelled code can raise. */
  datatype Exception =
    | NullPointer            // java.lang.NullPointerException
    | UnsupportedOperation   // a minimal-json accessor used on a value of another kind
    | NumberFormat           // a JSON number outside the range of the Java type asked for
    | ClassCast              // a cached value of one kind read back as another
    | IndexOutOfBounds       // an ArrayList index outside [0, size)
    | IllegalArgument        // an enum constant that no text names
    | EndOfFile              // a snapshot stream that ends too early
    | StreamCorrupted        // a snapshot record of the wrong kind

  /** A Java reference that may be null. */
  datatype Option<+T> = None | Some(value: T)

  /** A value, or the exception thrown instead of returning it. */
  datatype Result<+T> = Ok(value: T) | Err(error: Exception)

  /** Normal completion of a void method, or the exception it threw. */
  datatype Outcome = Done | Threw(error: Exception)
}

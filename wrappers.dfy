/** Option and Result, plus the exceptions of the modelled code that callers can observe. */
module Wrappers {

  /** A value that may be missing: the model's stand-in for a `null` reference or a failed lookup. */
  datatype Option<+T> = None | Some(value: T)

  /** The outcome of an operation that returns a value or throws. */
  datatype Result<+T, +E> = Ok(value: T) | Err(error: E)

  /** The .NET exceptions that the modelled operations let escape to their callers. */
  datatype Fault =
    | ArgumentNull(paramName: string)   // System.ArgumentNullException
    | NullReference                     // System.NullReferenceException
    | Format                            // System.FormatException from int.Parse / bool.Parse
    | Overflow                          // System.OverflowException from int.Parse
    | IO                                // System.IO.IOException from File.Move
}

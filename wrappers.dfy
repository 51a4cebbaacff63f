/** Failure-compatible wrappers: Java's null and thrown exceptions are modelled as values. */
module Wrappers {

  datatype Option<+T> = None | Some(value: T)

  /** The exceptions the modelled code throws, each with the message it carries. */
  datatype Error =
    | ConfigurationError(message: string)   // com.anjlab.csv2db.ConfigurationException
    | RuntimeError(message: string)         // java.lang.RuntimeException
    | IllegalArgument(message: string)      // java.lang.IllegalArgumentException
    | IllegalState(message: string)         // java.lang.IllegalStateException
    | JsonParse(message: string)            // com.google.gson.JsonParseException
    | UnsupportedOperation(message: string) // java.lang.UnsupportedOperationException
    | NullPointer                           // java.lang.NullPointerException
    | IndexOutOfBounds(index: int)          // java.lang.ArrayIndexOutOfBoundsException

  datatype Result<+R> = Ok(value: R) | Err(error: Error) {
    predicate IsFailure() { Err? }
    function PropagateFailure<U>(): Result<U>
      requires Err?
    {
      Err(error)
    }
    function Extract(): R
      requires Ok?
    {
      value
    }
  }
}

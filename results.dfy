/** The exceptions the converter can raise, as values, and the failure-compatible
    wrappers that carry them. A run that throws in the C# program yields `Err`
    here with the kind of exception that would have been thrown. */
module Results {

  datatype Error =
    | FileNotFound(path: string)   // File.ReadAllLines on a path that names no file
    | IndexOutOfRange              // array index past the end of a String.Split result
    | ArgumentOutOfRange           // String.Substring past the end, or a List indexer out of range
    | NullReference                // member access through a null Material
    | DuplicateKey(key: string)    // Dictionary.Add with a key that is already present
    | BadFormat(text: string)      // int.Parse or float.Parse of text that is not a number
    | Overflow(text: string)       // int.Parse of a number outside the 32-bit range

  datatype Result<+T> = Ok(value: T) | Err(error: Error) {
    predicate IsFailure() { Err? }
    function PropagateFailure<U>(): Result<U> requires Err? { Err(error) }
    function Extract(): T requires Ok? { value }
  }

  datatype Option<+T> = None | Some(value: T)

  /** The outcome of a method that changes state and returns nothing. */
  datatype Outcome = Pass | Fail(error: Error)

  function StatusOf<T>(r: Result<T>): Outcome {
    match r
    case Ok(_) => Pass
    case Err(e) => Fail(e)
  }
}

/** Option and Result types used for the source's NaN values and exceptions. */
module Wrappers {

  datatype Option<T> = None | Some(value: T)

  /** The kinds of exception the modelled Java code raises. */
  datatype Error =
    | IllegalArgument     // IllegalArgumentException thrown explicitly
    | IndexOutOfBounds    // ArrayIndexOutOfBoundsException from an unchecked index
    | AstroFailure        // jephem.astro.AstroException
    | NullReference       // NullPointerException from a missing object
    | Halted              // System.exit called from library code
    | NegativeArraySize   // NegativeArraySizeException from an array of negative length

  datatype Result<T> = Ok(value: T) | Err(error: Error)
  {
    predicate IsFailure() { Err? }
    function PropagateFailure<U>(): Result<U>
      requires Err?
    {
      Err(error)
    }
    function Extract(): T
      requires Ok?
    {
      value
    }
  }
}

/** Java's null references and thrown IllegalArgumentExceptions, as values. */
module Wrappers {

  /** A nullable reference: None stands for Java's null. */
  datatype Option<+T> = None | Some(value: T)

  /** The outcome of a conversion that may throw an IllegalArgumentException. */
  datatype Result<+T> = Ok(value: T) | IllegalArgumentException(message: string)
}

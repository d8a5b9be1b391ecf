// Shared vocabulary of the model: optional values (Java's null), results that
// carry the exception a Java call would throw, and bytes.
module Common {
  /** A Java reference that may be null. */
  datatype Option<T> = None | Some(value: T)

  /** The outcome of a Java call that either returns or throws. */
  datatype Result<T, E> = Ok(value: T) | Err(error: E)

  /** One octet as written to or read from a stream. */
  type Byte = b: int | 0 <= b < 256

  type Bytes = seq<Byte>
}

/** Shared value types of the client: bytes on the wire and the usual
    Option / Result wrappers standing in for Java's null and exceptions. */
module Wire {

  type byte = bv8

  datatype Option<+T> = None | Some(value: T)

  datatype Result<+R, +E> = Success(value: R) | Failure(error: E)
}

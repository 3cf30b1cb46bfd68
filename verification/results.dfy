/** Failure-carrying wrappers shared by the model: `Option` stands for a Java
    reference that may be null, `Result` for a value or a thrown exception. */
module Results {

  datatype Option<+T> = None | Some(value: T)

  datatype Result<+T, +E> = Success(value: T) | Failure(error: E)
}

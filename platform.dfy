/** Option and Result, for the values Java expresses with null and exceptions. */
module Wrappers {

  datatype Option<+T> = None | Some(value: T)

  datatype Result<+T, +E> = Success(value: T) | Failure(error: E)
}

/** What the model needs of the Java platform the reload engine runs on. */
module Platform {

  /** `File.separator` on the POSIX hosts the model assumes. */
  const FileSeparator: char := '/'

  /** The exceptions and errors the modelled code throws or lets through. */
  datatype JavaThrowable =
    | ClassNotFoundException(message: string)
    | StringIndexOutOfBoundsException(index: int)
    | NullPointerException
      /**
       * A `java.lang.LinkageError` such as `ClassFormatError` or
       * `NoClassDefFoundError`, named by its class: an `Error`, which no
       * `catch (Exception e)` intercepts.
       */
    | LinkageError(errorClass: string)
}

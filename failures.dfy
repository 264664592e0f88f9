/** Outcomes of the operations: a value, or the exception the Java code throws. */
module Failures {

  /** A value that may be absent; `None` stands for the Java `null`. */
  datatype Option<+T> = None | Some(value: T)

  /** A value, or the error that was raised instead. */
  datatype Result<+R, +E> = Success(value: R) | Failure(error: E)

  /** Completion of an operation that returns nothing (Java `void`). */
  datatype Outcome<+E> = Pass | Fail(error: E)

  /**
   * The exceptions raised by the modelled code, one constructor per
   * distinct throw site.
   */
  datatype Error =
    // IllegalArgumentException: the directory is missing and auto-creation is off
    | DirectoryMissing(directory: string)
    // IllegalArgumentException: the path exists but is not a directory
    | NotADirectory(directory: string)
    // IllegalArgumentException: the engine refused to open the directory
    | InitializationFailed(directory: string)
    // IllegalStateException: an operation on a closed handle
    | ClosedInstance
    // NullPointerException: a field or registry entry that is null was dereferenced
    | NullDereference
}

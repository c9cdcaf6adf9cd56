/** Failure-carrying values for the Python exceptions raised by the DICOM I/O helpers. */
module Results {

  /** The exceptions the helpers raise, with the message text they carry. */
  datatype Error =
    | ValueError(message: string)
    | TypeError(message: string)
    | FileNotFoundError(path: string)

  datatype Option<+T> = None | Some(value: T)

  datatype Result<+T> = Success(value: T) | Failure(error: Error)

  /** The result of an operation that returns nothing but may raise. */
  datatype Outcome = Pass | Fail(error: Error)
}

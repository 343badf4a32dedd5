/** Small value types shared by the rest of the model. */
module Common {

  /** A value that may be absent: a Python `None`, a missing dictionary key. */
  datatype Option<+T> = None | Some(value: T)

  /** The outcome of a call into a cloud SDK, which the model does not see into. */
  datatype SdkOutcome =
    | SdkOk
      /** botocore's ClientError, with the service's error code and message */
    | ClientError(code: string, message: string)
      /** any other exception, with its text */
    | OtherError(message: string)
  {
    predicate Succeeded() { SdkOk? }

    /** `str(e)` of the raised exception, kept abstract beyond "it is the error's text". */
    function ErrorText(): string
      requires !SdkOk?
    {
      match this
      case ClientError(_, m) => m
      case OtherError(m) => m
    }
  }
}

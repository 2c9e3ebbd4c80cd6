/** Vocabulary shared by every module: optional values, the outcome of an
    operation that may raise, and the exceptions the modelled code raises or
    lets escape. */
module Common {

  datatype Option<+T> = None | Some(value: T)

  /** The exceptions that can leave the modelled operations. */
  datatype Error =
    | ScriptError(message: string)  // the program's own exception class
    | AttributeError                // attribute read on an object that lacks it
    | JobLookupError                // the scheduler holds no job with that handle
    | ValueError                    // list.remove of an element not in the list
    | KeyError(key: string)         // dictionary read of a missing key
    | TriggerRejected               // the scheduler refused the trigger arguments

  /** An operation that returns nothing useful, or raises. */
  datatype Outcome = Pass | Fail(error: Error)

  /** An operation that returns a value, or raises. */
  datatype Result<+T> = Ok(value: T) | Err(error: Error)

  /** Identity of a job handle returned by the scheduler. */
  type JobId = nat
}

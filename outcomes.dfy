/** The exceptions the banking code throws, as values. */
module Outcomes {

  /** One variant per exception type the core raises. */
  datatype Error =
    | IllegalArgument    // java.lang.IllegalArgumentException
    | InsufficientFunds  // banking.InsufficientFundsException
    | PayeeNotFound      // banking.PayeeNotFoundException
    | IllegalState       // java.lang.IllegalStateException
    | FailedLogin        // javax.security.auth.login.FailedLoginException
    | NullPointer        // java.lang.NullPointerException

  /** The outcome of a `void` method that may throw. */
  datatype Outcome = Pass | Fail(error: Error)

  /** The outcome of a method that returns a value or throws. */
  datatype Result<T> = Success(value: T) | Failure(error: Error)

  /** java.util.Optional. */
  datatype Option<T> = None | Some(value: T)
}

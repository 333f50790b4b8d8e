/** The exceptions the transactions pipeline raises, as one closed set of
    failure kinds, and the small result types the stages return instead of
    raising. */
module Errors {

  /** FileNotFound is Python's built-in FileNotFoundError; the other seven are
      the exception classes the pipeline declares. */
  datatype Error =
    | FileNotFound
    | EmptyDataFrame
    | NoTransactionDate
    | NoTransactionId
    | NoTransactionAmount
    | WrongTransactionDateType
    | WrongTransactionIdType
    | WrongTransactionAmountType

  datatype Option<+T> = None | Some(value: T)

  /** A stage that produces a value, or the exception it raised. */
  datatype Result<+T> = Success(value: T) | Failure(error: Error)

  /** A stage that produces nothing, or the exception it raised. */
  datatype Outcome = Pass | Fail(error: Error)
}

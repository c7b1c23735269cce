/** Failure-compatible datatypes shared by every module. */
module Wrappers {

  datatype Option<+T> = None | Some(value: T)

  datatype Result<+T, +E> = Success(value: T) | Failure(error: E) {

    predicate IsFailure() {
      Failure?
    }

    function PropagateFailure<U>(): Result<U, E>
      requires Failure?
    {
      Failure(error)
    }

    function Extract(): T
      requires Success?
    {
      value
    }
  }
}

/** The stable failure codes of the domain, and the errors a use case returns. */
module Apperr {

  datatype Code =
    | InsufficientFunds
    | ReversalInsufficientFunds
    | ReferenceNotFound
    | ReferenceAlreadyReversed
    | ReferenceNotProcessed
    | ReferenceMismatch
    | ReferenceAmountMismatch
    | ReferenceNotReversible
    | CurrencyMismatch
    | InvalidAmount
    | KindNotAllowed
    | WalletNotFound
    | PlayerWalletMismatch
    | Conflict
    | InvalidInput

  /** What PostgreSQL reports when a statement or a commit fails. */
  datatype SqlState =
    | DeadlockDetected        // 40P01
    | SerializationFailure    // 40001
    | UniqueViolation         // 23505
    | InFailedTransaction     // 25P02
    | ConnectionLost

  datatype Error = Domain(code: Code) | Sql(state: SqlState)
}

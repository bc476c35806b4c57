/**
 * Null, success and failure, as the customer service sees them.
 *
 * `Option` stands for a Java reference that may be null, `Result` for a
 * value-or-exception (a `Mono` that either emits or errors), and `Outcome`
 * for a call that either returns normally or throws (a `void` method, a
 * `Mono<Void>`). `Failure` names the exception kinds the service raises.
 */
module Outcomes {

  datatype Option<+T> = None | Some(value: T)

  /** The exception kinds that reach a caller of the customer core. */
  datatype Failure =
    | IllegalArgument(message: string)  // IllegalArgumentException: missing input, unknown enum value
    | IllegalState(message: string)     // IllegalStateException: business rule broken
    | Unprocessable(message: string)    // UnprocessableException: cross-field rule broken
    | Conflict(message: string)         // ConflictException: document already in use
    | NotFound(message: string)         // NotFoundException: no (active) record
    | DuplicateKey                      // the store's unique index rejected a write
    | IncorrectResultSize               // a single-result finder matched several records
    | NullPointer                       // a null reference was dereferenced

  datatype Result<+T> = Ok(value: T) | Err(error: Failure) {
    predicate IsFailure() { Err? }
    function PropagateFailure<U>(): Result<U>
      requires Err?
    {
      Err(error)
    }
    function Extract(): T
      requires Ok?
    {
      value
    }
  }

  datatype Outcome = Pass | Fail(error: Failure) {
    predicate IsFailure() { Fail? }
    function PropagateFailure(): Outcome
      requires Fail?
    {
      this
    }
  }
}

/** Failure-carrying results used in place of the exceptions thrown by the source. */
module Outcomes {

  /** A value that may be absent: a Java reference that may be null, or an Optional. */
  datatype Option<+T> = None | Some(value: T)

  /** Either a computed value or the error a Java method would have thrown. */
  datatype Result<+T, +E> = Ok(value: T) | Err(error: E)

  /** The result of a void Java method: it returned normally, or it threw. */
  datatype Outcome<+E> = Pass | Fail(error: E)

  /** A state-changing call kept its specification: on success it reports `Pass` and the new state is the
      specified one; on refusal it reports the specified error and the state is the one before the call. */
  predicate Follows<S(==), E(==)>(before: S, after: S, r: Outcome<E>, spec: Result<S, E>) {
    match spec
    case Ok(next) => r == Pass && after == next
    case Err(e) => r == Fail(e) && after == before
  }
}

/** Optional values and the outcomes of fail-closed operations. */
module Results {

  datatype Option<+T> = None | Some(value: T)

  /** The exception classes the engine raises, plus the loss of power that ends a call early. */
  datatype Error =
    | Integrity       // WorkspaceIntegrityError
    | Stale           // StaleWorkspaceError
    | Frozen          // FrozenWorkspaceError
    | Illegal         // IllegalTransitionError
    | Control         // AdapterControlError, VerificationControlError, ValueError of a guarded use case
    | OutcomeUnknown  // EffectOutcomeUnknown
    | Crash           // the process died at a durable write

  datatype Result<+T> = Ok(value: T) | Err(error: Error) {
    predicate IsFailure() {
      Err?
    }

    function PropagateFailure<U>(): Result<U>
      requires Err?
    {
      Err(error)
    }

    function Extract(): T
      requires Ok?
    {
      value
    }
  }
}

/**
 * `RelayCommand` and `AsyncRelayCommand`: the command objects the view-model
 * exposes. A command's guard delegate is represented by the value it returns
 * when asked (`None` when the command was built without a guard), and the
 * awaited body by whether it throws.
 */
module Commands {
  import opened Primitives

  /** `RelayCommand.CanExecute`: `_can?.Invoke(parameter) ?? true`. */
  function RelayCanExecute(guard: Option<bool>): (r: bool)
    ensures r <==> guard != Some(false)
  {
    match guard
    case None => true
    case Some(allowed) => allowed
  }

  /** How one call of `ExecuteAsync` ended. */
  datatype Execution =
    | Skipped    // CanExecute was false: nothing ran
    | Completed  // the body ran and returned
    | Faulted    // the body ran and threw; the exception reaches the caller

  /**
   * `AsyncRelayCommand`: a re-entrancy guard around an awaited body.
   * `_isRunning` is set before the body and cleared in a `finally`.
   */
  class AsyncRelayCommand {
    var isRunning: bool
    /** How many times a body has been started. */
    ghost var bodyRuns: nat

    constructor ()
      ensures !isRunning && bodyRuns == 0
    {
      isRunning := false;
      bodyRuns := 0;
    }

    /** `CanExecute`: the guard holds and no body is in flight. */
    predicate CanExecute(guard: Option<bool>)
      reads this
      ensures CanExecute(guard) <==> guard != Some(false) && !isRunning
    {
      RelayCanExecute(guard) && !isRunning
    }

    /**
     * The part of `ExecuteAsync` before the body: return at once when
     * `CanExecute` is false, otherwise mark the command running.
     */
    method Begin(guard: Option<bool>) returns (entered: bool)
      modifies this
      ensures entered == old(CanExecute(guard))
      ensures entered ==> isRunning && bodyRuns == old(bodyRuns) + 1
      ensures !entered ==> isRunning == old(isRunning) && bodyRuns == old(bodyRuns)
    {
      entered := CanExecute(guard);
      if entered {
        isRunning := true;
        bodyRuns := bodyRuns + 1;
      }
    }

    /** The `finally` block of `ExecuteAsync`. */
    method Finish()
      modifies this
      ensures !isRunning && bodyRuns == old(bodyRuns)
    {
      isRunning := false;
    }

    /**
     * `ExecuteAsync` with an opaque body that either returns or throws.
     * A call while a body is in flight is skipped, and the flag is clear
     * again after every call that ran the body, whether or not it threw.
     */
    method ExecuteAsync(guard: Option<bool>, bodyThrows: bool) returns (r: Execution)
      modifies this
      ensures r.Skipped? <==> !old(CanExecute(guard))
      ensures old(isRunning) ==> r.Skipped?
      ensures r.Skipped? ==> isRunning == old(isRunning) && bodyRuns == old(bodyRuns)
      ensures !r.Skipped? ==> !isRunning && bodyRuns == old(bodyRuns) + 1
      ensures !r.Skipped? ==> (r.Faulted? <==> bodyThrows)
    {
      var entered := Begin(guard);
      if !entered {
        return Skipped;
      }
      // the awaited body runs here, with isRunning set
      r := if bodyThrows then Faulted else Completed;
      Finish();
    }
  }
}

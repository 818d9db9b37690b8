/**
 * Shared kernel: the Result type every mutating operation returns, an Option
 * type for JavaScript's `undefined`/`null`, and the closed set of error codes
 * the system reports.
 */
module Kernel {

  /** A value that may be absent (`undefined` or `null` in the source). */
  datatype Option<+T> = None | Some(value: T)

  /** `{ ok: true, value }` or `{ ok: false, error }`. The constructors are `ok` and `err`. */
  datatype Result<+T, +E> = Ok(value: T) | Err(error: E)

  /** The `void` payload of a successful mutation. */
  datatype Unit = Unit

  /**
   * The error codes of the workflow, agent and task-store layers. The free-text
   * detail the source appends after the code (`"AGENT_NOT_FOUND: planner"`) is
   * not modelled; `StateUnavailable` stands for the uncoded message
   * "State file not found or invalid".
   */
  datatype CrewError =
    // workflow
    | WorkflowNotFound | InvalidDefinition | MaxCyclesExceeded | GatePending
    | AlreadyRunning | NotRunning | WorkflowCompleted | StateUnavailable
    // agents
    | SpawnFailed | AgentNotFound | TmuxError | NudgeFailed | SessionExists | RespawnFailed
    // tasks
    | TaskNotFound | InvalidTransition | WriteFailed | ParseError | ValidationError
    | InvalidId | ReadFailed

  /** `isOk(r)`: the success flag. */
  predicate IsOk<T, E>(r: Result<T, E>) {
    r.Ok?
  }

  /** `isErr(r)`: the negated success flag. */
  predicate IsErr<T, E>(r: Result<T, E>) {
    !r.Ok?
  }

  /** `ok(v)` is a success that carries `v` unchanged. */
  lemma OkCarriesValue<T, E>(v: T)
    ensures var r: Result<T, E> := Ok(v); IsOk(r) && !IsErr(r) && r.value == v
  {
  }

  /** `err(e)` is a failure that carries `e` unchanged. */
  lemma ErrCarriesError<T, E>(e: E)
    ensures var r: Result<T, E> := Err(e); IsErr(r) && !IsOk(r) && r.error == e
  {
  }

  /** For every result, exactly one of `isOk` and `isErr` holds. */
  lemma IsOkIffNotIsErr<T, E>(r: Result<T, E>)
    ensures IsOk(r) <==> !IsErr(r)
  {
  }
}

/**
 * The task lifecycle: the eight task statuses and the table of the moves a
 * task may make between them.
 */
module Transitions {

  /**
   * A task's status. `Ready` is used by the transition table and by the task
   * listing, though the status type of `kernel/types.ts` does not name it.
   */
  datatype TaskStatus = Todo | Ready | InProgress | DevDone | InReview | Blocked | ChangesRequested | Closed

  /** `VALID_TRANSITIONS[from]`: the statuses a task may move to, in table order. */
  function ValidTargets(from: TaskStatus): seq<TaskStatus> {
    match from
    case Todo => [Ready]
    case Ready => [InProgress]
    case InProgress => [DevDone, Blocked]
    case DevDone => [InReview]
    case InReview => [Closed, ChangesRequested]
    case ChangesRequested => [InProgress]
    case Blocked => [InProgress]
    case Closed => []
  }

  /** `isValidTransition(from, to)`: membership in the table row of `from`. */
  predicate IsValidTransition(from: TaskStatus, to: TaskStatus) {
    to in ValidTargets(from)
  }

  /** The table read by target: the statuses a task may come from. */
  function Sources(to: TaskStatus): set<TaskStatus> {
    match to
    case Todo => {}
    case Ready => {Todo}
    case InProgress => {Ready, ChangesRequested, Blocked}
    case DevDone => {InProgress}
    case InReview => {DevDone}
    case Blocked => {InProgress}
    case ChangesRequested => {InReview}
    case Closed => {InReview}
  }

  /** The forward table and the table by target describe the same moves. */
  lemma TableBySource(from: TaskStatus, to: TaskStatus)
    ensures IsValidTransition(from, to) <==> from in Sources(to)
  {
  }

  /** `closed` is final, and no status moves to itself. */
  lemma ClosedIsFinalAndNoSelfLoops(s: TaskStatus, t: TaskStatus)
    ensures !IsValidTransition(Closed, t)
    ensures !IsValidTransition(s, s)
  {
  }

  /** A `todo` task may only become `ready`: it cannot start work directly. */
  lemma TodoOnlyBecomesReady(t: TaskStatus)
    ensures IsValidTransition(Todo, t) <==> t == Ready
  {
  }

  /**
   * Only a task in review can be closed, and a blocked task or one with
   * changes requested can only go back to work.
   */
  lemma ClosingAndReturning(s: TaskStatus, t: TaskStatus)
    ensures IsValidTransition(s, Closed) <==> s == InReview
    ensures IsValidTransition(Blocked, t) <==> t == InProgress
    ensures IsValidTransition(ChangesRequested, t) <==> t == InProgress
  {
  }

  /** Nothing leads back to `todo`. */
  lemma TodoIsNeverReentered(s: TaskStatus)
    ensures !IsValidTransition(s, Todo)
  {
  }

  /** A sequence of statuses each of which is a valid move from the one before. */
  predicate ValidPath(p: seq<TaskStatus>) {
    forall i :: 0 < i < |p| ==> IsValidTransition(p[i - 1], p[i])
  }

  /** A shortest way from each status to `closed`. */
  function PathToClosed(s: TaskStatus): (p: seq<TaskStatus>)
    ensures |p| >= 1 && p[0] == s && p[|p| - 1] == Closed
    ensures ValidPath(p)
    decreases match s
      case Todo => 5 case Ready => 4 case InProgress => 3 case Blocked => 4
      case ChangesRequested => 4 case DevDone => 2 case InReview => 1 case Closed => 0
  {
    match s
    case Closed => [Closed]
    case InReview => [InReview, Closed]
    case DevDone => [DevDone] + PathToClosed(InReview)
    case InProgress => [InProgress] + PathToClosed(DevDone)
    case Ready => [Ready] + PathToClosed(InProgress)
    case Blocked => [Blocked] + PathToClosed(InProgress)
    case ChangesRequested => [ChangesRequested] + PathToClosed(InProgress)
    case Todo => [Todo] + PathToClosed(Ready)
  }

  /** Every task can still be closed, whatever its status. */
  lemma EveryStatusCanBeClosed(s: TaskStatus)
    ensures exists p :: |p| >= 1 && p[0] == s && p[|p| - 1] == Closed && ValidPath(p)
  {
    var p := PathToClosed(s);
    assert |p| >= 1 && p[0] == s && p[|p| - 1] == Closed && ValidPath(p);
  }

  /** On a valid path `closed` can only be the last status. */
  lemma ClosedEndsEveryPath(p: seq<TaskStatus>)
    requires ValidPath(p)
    ensures forall i :: 0 <= i < |p| - 1 ==> p[i] != Closed
  {
    forall i | 0 <= i < |p| - 1
      ensures p[i] != Closed
    {
      assert IsValidTransition(p[i], p[i + 1]);
    }
  }

  /** A valid path that starts at `todo` and goes on passes through `ready` next. */
  lemma TodoPathsPassReady(p: seq<TaskStatus>)
    requires ValidPath(p) && |p| >= 2 && p[0] == Todo
    ensures p[1] == Ready
  {
    assert IsValidTransition(p[0], p[1]);
  }

  /** A valid path into `closed` arrives from review. */
  lemma ClosedOnlyAfterReview(p: seq<TaskStatus>)
    requires ValidPath(p) && |p| >= 1 && p[|p| - 1] == Closed && p[0] != Closed
    ensures |p| >= 2 && p[|p| - 2] == InReview
  {
    var n := |p| - 1;
    assert n > 0;
    assert IsValidTransition(p[n - 1], p[n]);
  }
}

/**
 * The control-loop policy of `crew start` and `crew continue`: the record
 * `PollContext`, the four per-tick steps (`promptIfNeeded`, `tryAdvanceStage`,
 * `maybeRecoverAgent`, `maybeNudgeAgent`), the gate question and the loop
 * that runs them. The same policy is written twice in the repository, once in
 * `_shared.ts` and once in `start.ts`; it is modelled once.
 *
 * The workflow engine is the verified class of `engine.dfy`; everything the
 * policy asks of the agent runner, the signal files and the clock is an
 * observation passed in, and everything it asks the runner to do is an
 * `Action` it returns. Each step is first a function on values (the
 * specification, about which the lemmas below speak) and then a method of
 * `PollContext` proved to perform it.
 */
module Poll {
  import opened Kernel
  import opened Schema
  import opened Workflow
  import opened Engine
  import Adapters
  import Runner

  /** The message a stalled agent is sent. */
  const NudgeMessage: string := "タスクを続行してください。止まっている場合はシグナルファイルを作成してください。"

  /** How long `waitForReady` waits after a prompt and after a respawn. */
  const AgentReadyTimeoutMs: int := 15000
  const RespawnReadyTimeoutMs: int := 15000

  /** What the loop asks the runner, the signal directory or the engine to do. */
  datatype Action =
    | PromptAgent(role: string, contextReset: bool)   // `promptAgent` for the agent named after the role
    | RemoveSignal(role: string)
    | Advance
    | SendNudge(role: string, message: string)
    | Respawn(role: string)
    | WaitForReady(role: string, timeoutMs: int)
    | RecordPid(role: string)
    | PersistRegistry
    | Approve
    | Reject

  /** The mutable part of `PollContext`. */
  datatype Tracker = Tracker(promptedStageIndex: int, lastActiveAt: int, nudgeCount: int)

  /** The caps of `PollContext`. */
  datatype Caps = Caps(nudgeIntervalMs: int, maxNudges: int, maxRespawns: int)

  /** A step's new tracker and the actions it performed, in order. */
  datatype Turn = Turn(tracker: Tracker, actions: seq<Action>)

  /** `tryAdvanceStage`'s `"break" | "continue"`. */
  datatype Outcome = Break | Continue

  datatype AdvanceTurn = AdvanceTurn(outcome: Outcome, tracker: Tracker, actions: seq<Action>)

  // ---------------------------------------------------------------------------
  // Reading the record

  /** `ctx.stages[idx]` for the current index. */
  function CurrentDef(s: WorkflowState, stages: seq<StageDefinition>): (d: Option<StageDefinition>)
    ensures d.Some? <==> 0 <= s.currentStageIndex < |stages|
    ensures d.Some? ==> d.value == stages[s.currentStageIndex]
  {
    if 0 <= s.currentStageIndex < |stages| then Some(stages[s.currentStageIndex]) else None
  }

  /** The current stage exists, is `active`, and has a definition. */
  predicate CurrentActive(s: WorkflowState, stages: seq<StageDefinition>) {
    InRange(s) && s.stages[s.currentStageIndex].status == Active && CurrentDef(s, stages).Some?
  }

  /** A readable, running record whose current stage is active and defined. */
  predicate Watching(state: Option<WorkflowState>, stages: seq<StageDefinition>) {
    state.Some? && state.value.status == Running && CurrentActive(state.value, stages)
  }

  /** `tryAdvanceStage` acts: the current stage is active and its role's signal file exists. */
  predicate Signalled(state: Option<WorkflowState>, stages: seq<StageDefinition>, signal: bool) {
    state.Some? && CurrentActive(state.value, stages) && signal
  }

  // ---------------------------------------------------------------------------
  // The steps, as functions

  /**
   * `promptIfNeeded`: prompt the current stage's agent when the workflow runs,
   * the stage is active and its index is above the last one prompted.
   */
  function PromptIfNeededStep(t: Tracker, stages: seq<StageDefinition>, state: Option<WorkflowState>): (r: Turn)
    ensures r.actions != [] <==> Watching(state, stages) && state.value.currentStageIndex > t.promptedStageIndex
    ensures r.actions != [] ==>
      var i := state.value.currentStageIndex;
      r.actions == [PromptAgent(stages[i].role, stages[i].contextReset)]
      && r.tracker == t.(promptedStageIndex := i)
    ensures r.actions == [] ==> r.tracker == t
  {
    if !Watching(state, stages) then Turn(t, [])
    else
      var i := state.value.currentStageIndex;
      if i > t.promptedStageIndex then
        Turn(t.(promptedStageIndex := i), [PromptAgent(stages[i].role, stages[i].contextReset)])
      else Turn(t, [])
  }

  /**
   * `tryAdvanceStage`, given the record read before, whether the signal file
   * exists, what `advance` returned and the record read after it.
   */
  function TryAdvanceStep(t: Tracker, stages: seq<StageDefinition>, before: Option<WorkflowState>, signal: bool,
                          advanced: Result<Unit, CrewError>, after: Option<WorkflowState>): (r: AdvanceTurn)
    // An unreadable record ends the loop; without an active stage and a signal nothing happens.
    ensures before.None? ==> r == AdvanceTurn(Break, t, [])
    ensures before.Some? && !Signalled(before, stages, signal) ==> r == AdvanceTurn(Continue, t, [])
    // When it acts, the signal is removed before the engine is asked to advance.
    ensures Signalled(before, stages, signal) ==>
      |r.actions| >= 2 && r.actions[..2] == [RemoveSignal(stages[before.value.currentStageIndex].role), Advance]
    ensures r.outcome == Break <==> before.None? || (Signalled(before, stages, signal) && advanced.Err?)
    // Only the prompt tracking changes, and only after a successful advance into a running record.
    ensures r.tracker.lastActiveAt == t.lastActiveAt && r.tracker.nudgeCount == t.nudgeCount
    ensures ResumesAfter(before, stages, signal, advanced, after) && CurrentActive(after.value, stages) ==>
      var j := after.value.currentStageIndex;
      r.actions == [RemoveSignal(stages[before.value.currentStageIndex].role), Advance,
                    PromptAgent(stages[j].role, stages[j].contextReset)]
      && r.tracker.promptedStageIndex == j
    ensures ResumesAfter(before, stages, signal, advanced, after) && !CurrentActive(after.value, stages) ==>
      |r.actions| == 2 &&
      r.tracker.promptedStageIndex ==
        (if after.value.currentStageIndex < before.value.currentStageIndex then -1 else t.promptedStageIndex)
    ensures !ResumesAfter(before, stages, signal, advanced, after) ==>
      |r.actions| <= 2 && r.tracker == t
  {
    if before.None? then AdvanceTurn(Break, t, [])
    else if !Signalled(before, stages, signal) then AdvanceTurn(Continue, t, [])
    else
      var i := before.value.currentStageIndex;
      var acts := [RemoveSignal(stages[i].role), Advance];
      if advanced.Err? then AdvanceTurn(Break, t, acts)
      else if after.None? || after.value.status != Running then AdvanceTurn(Continue, t, acts)
      else
        var j := after.value.currentStageIndex;
        var t1 := if j < i then t.(promptedStageIndex := -1) else t;
        if CurrentActive(after.value, stages) then
          AdvanceTurn(Continue, t1.(promptedStageIndex := j), acts + [PromptAgent(stages[j].role, stages[j].contextReset)])
        else AdvanceTurn(Continue, t1, acts)
  }

  /** `tryAdvanceStage` went through `advance` and finds the workflow still running. */
  predicate ResumesAfter(before: Option<WorkflowState>, stages: seq<StageDefinition>, signal: bool,
                         advanced: Result<Unit, CrewError>, after: Option<WorkflowState>) {
    Signalled(before, stages, signal) && advanced.Ok? && after.Some? && after.value.status == Running
  }

  /**
   * `maybeNudgeAgent`: an active agent resets the idle clock and the nudge
   * count; an idle one past the interval and below the cap is nudged.
   */
  function NudgeStep(t: Tracker, caps: Caps, stages: seq<StageDefinition>, state: Option<WorkflowState>,
                     status: Result<Adapters.AgentStatus, CrewError>, now: int): (r: Turn)
    ensures Watching(state, stages) && status == Ok(Adapters.Active) ==>
      r == Turn(t.(lastActiveAt := now, nudgeCount := 0), [])
    ensures r.actions != [] <==>
      Watching(state, stages) && status == Ok(Adapters.Idle)
      && now - t.lastActiveAt > caps.nudgeIntervalMs && t.nudgeCount < caps.maxNudges
    ensures r.actions != [] ==>
      r.actions == [SendNudge(stages[state.value.currentStageIndex].role, NudgeMessage)]
      && r.tracker == t.(lastActiveAt := now, nudgeCount := t.nudgeCount + 1)
    ensures r.actions == [] && !(Watching(state, stages) && status == Ok(Adapters.Active)) ==> r.tracker == t
  {
    if !Watching(state, stages) || status.Err? then Turn(t, [])
    else if status.value == Adapters.Active then Turn(t.(lastActiveAt := now, nudgeCount := 0), [])
    else if status.value == Adapters.Idle && now - t.lastActiveAt > caps.nudgeIntervalMs && t.nudgeCount < caps.maxNudges then
      Turn(t.(lastActiveAt := now, nudgeCount := t.nudgeCount + 1),
           [SendNudge(stages[state.value.currentStageIndex].role, NudgeMessage)])
    else Turn(t, [])
  }

  /**
   * `maybeRecoverAgent` respawns: the workflow runs, the current index has a
   * definition (its status is not looked at), the agent is dead, and its
   * respawn count, when the runner knows the agent, is below the cap.
   */
  predicate Recovers(caps: Caps, stages: seq<StageDefinition>, state: Option<WorkflowState>,
                     health: Result<Runner.ProcessHealth, CrewError>, respawnCount: Option<nat>) {
    && state.Some? && state.value.status == Running
    && CurrentDef(state.value, stages).Some?
    && health == Ok(Runner.Dead)
    && !(respawnCount.Some? && respawnCount.value >= caps.maxRespawns)
  }

  /** The calls a successful respawn is followed by, ending with the stage's prompt again. */
  function AfterRespawn(d: StageDefinition): seq<Action> {
    [WaitForReady(d.role, RespawnReadyTimeoutMs), RecordPid(d.role), PersistRegistry, PromptAgent(d.role, d.contextReset)]
  }

  /** `maybeRecoverAgent`, given the health probe, the runner's respawn count and `respawn`'s result. */
  function RecoverStep(t: Tracker, caps: Caps, stages: seq<StageDefinition>, state: Option<WorkflowState>,
                       health: Result<Runner.ProcessHealth, CrewError>, respawnCount: Option<nat>,
                       respawned: Result<Unit, CrewError>, now: int): (r: Turn)
    ensures !Recovers(caps, stages, state, health, respawnCount) ==> r == Turn(t, [])
    ensures Recovers(caps, stages, state, health, respawnCount) && respawned.Err? ==>
      r == Turn(t, [Respawn(stages[state.value.currentStageIndex].role)])
    ensures Recovers(caps, stages, state, health, respawnCount) && respawned.Ok? ==>
      var d := stages[state.value.currentStageIndex];
      r.actions == [Respawn(d.role)] + AfterRespawn(d)
      && r.tracker == t.(lastActiveAt := now, nudgeCount := 0)
  {
    if !Recovers(caps, stages, state, health, respawnCount) then Turn(t, [])
    else
      var d := stages[state.value.currentStageIndex];
      if respawned.Err? then Turn(t, [Respawn(d.role)])
      else Turn(t.(lastActiveAt := now, nudgeCount := 0), [Respawn(d.role)] + AfterRespawn(d))
  }

  /** `handleGate`'s result: whether to go on, the record afterwards, and the decision taken. */
  datatype GateTurn = GateTurn(proceed: bool, stored: Option<WorkflowState>, actions: seq<Action>)

  /**
   * The answer approves when it lowercases to `"y"`: exactly the one-letter
   * answers `y` and `Y`. A missing answer (no terminal) does not approve.
   */
  predicate Approves(answer: Option<string>) {
    answer == Some("y") || answer == Some("Y")
  }

  /** `getCurrentStage` finds a current stage waiting at its gate. */
  predicate GateWaiting(stored: Option<WorkflowState>) {
    var c := GetCurrentStage(stored);
    c.Ok? && c.value.Some? && c.value.value.status == WaitingGate
  }

  /** `handleGate`: ask at a waiting gate, then approve, or reject and stop. */
  function GateStep(stored: Option<WorkflowState>, answer: Option<string>, now: string): (r: GateTurn)
    ensures !GateWaiting(stored) ==> r == GateTurn(true, stored, [])
    ensures r.proceed <==> !GateWaiting(stored) || Approves(answer)
    ensures GateWaiting(stored) && Approves(answer) ==>
      var i := stored.value.currentStageIndex;
      && r.actions == [Approve] && r.stored.Some? && r.stored.value.status == Running
      && r.stored.value.currentStageIndex == i && InRange(r.stored.value)
      && r.stored.value.stages[i].status == Active
      && r.stored.value.cycleCount == stored.value.cycleCount
    ensures GateWaiting(stored) && !Approves(answer) ==>
      && r.actions == [Reject] && r.stored.Some? && r.stored.value.status == WorkflowStatus.Completed
      && r.stored.value.stages == stored.value.stages
  {
    if !GateWaiting(stored) then GateTurn(true, stored, [])
    else if Approves(answer) then GateTurn(true, Apply(stored, ApproveGate(stored, now)), [Approve])
    else GateTurn(false, Apply(stored, RejectGate(stored, now)), [Reject])
  }

  /** `advance` on the engine once it has cached `def`. */
  function AdvanceStored(stored: Option<WorkflowState>, def: WorkflowDefinition, now: string): (e: Effect)
    ensures EnsureRunning(stored).Err? ==> e == Effect(None, Err(EnsureRunning(stored).error))
    ensures EnsureRunning(stored).Ok? ==> e == AdvanceState(stored.value, def, now)
  {
    var running := EnsureRunning(stored);
    if running.Err? then Effect(None, Err(running.error)) else AdvanceState(running.value, def, now)
  }

  /** `sendFirstPrompt`'s result: the index it prompted (or -1) and what it did. */
  datatype FirstPrompt = FirstPrompt(index: int, actions: seq<Action>)

  /**
   * `sendFirstPrompt`: prompt the current stage when it is active and
   * defined (the workflow status is not looked at), and report its index.
   */
  function SendFirstPrompt(stored: Option<WorkflowState>, stages: seq<StageDefinition>): (r: FirstPrompt)
    ensures r.index != -1 <==> stored.Some? && CurrentActive(stored.value, stages)
    ensures r.index != -1 ==>
      var i := stored.value.currentStageIndex;
      r.index == i && r.actions == [PromptAgent(stages[i].role, stages[i].contextReset)]
    ensures r.index == -1 ==> r.actions == []
  {
    if stored.Some? && CurrentActive(stored.value, stages) then
      var i := stored.value.currentStageIndex;
      FirstPrompt(i, [PromptAgent(stages[i].role, stages[i].contextReset)])
    else FirstPrompt(-1, [])
  }

  // ---------------------------------------------------------------------------
  // One tick and a whole run, as functions

  /** What the loop learns from the outside world during one pass of `pollLoop`. */
  datatype Tick = Tick(
    aborted: bool,                                       // the abort signal fired (SIGINT/SIGTERM)
    replaced: Option<Option<WorkflowState>>,             // another process rewrote or removed state.json
    answer: Option<string>,                              // the reply to the gate question, if asked
    signal: bool,                                        // the current role's `.done` file exists
    health: Result<Runner.ProcessHealth, CrewError>,     // `checkHealth` for the current role
    respawnCount: Option<nat>,                           // `getAgentInfo(role)?.respawnCount`
    respawned: Result<Unit, CrewError>,                  // what `respawn` returns, if called
    status: Result<Adapters.AgentStatus, CrewError>,     // `getStatus` for the current role
    clock: int,                                          // `Date.now()`
    stamp: string)                                       // the ISO time the engine writes

  /** Why `pollLoop` stopped. */
  datatype Exit = Aborted | StateUnreadable | WorkflowDone | WorkflowFailed | GateDeclined | AdvanceBroke

  /** The loop's fixed inputs: the stage definitions, the engine's cached definition and the caps. */
  datatype Knobs = Knobs(stages: seq<StageDefinition>, def: WorkflowDefinition, caps: Caps)

  /** After one pass: why the loop stopped (if it did), the tracker, the state file and the actions. */
  datatype Pass = Pass(exit: Option<Exit>, tracker: Tracker, stored: Option<WorkflowState>, actions: seq<Action>)

  /** The state file as this pass reads it. */
  function ReadAt(stored: Option<WorkflowState>, o: Tick): Option<WorkflowState> {
    if o.replaced.Some? then o.replaced.value else stored
  }

  /** The state file after `tryAdvanceStage` of this pass. */
  function AdvancedAt(stages: seq<StageDefinition>, def: WorkflowDefinition, stored: Option<WorkflowState>,
                      signal: bool, now: string): Option<WorkflowState> {
    if Signalled(stored, stages, signal) then Apply(stored, AdvanceStored(stored, def, now)) else stored
  }

  /**
   * One pass of `pollLoop`: the exit checks, then gate, `promptIfNeeded`,
   * `tryAdvanceStage`, recovery and nudge, in that order.
   */
  function PollTick(k: Knobs, t: Tracker, stored: Option<WorkflowState>, o: Tick): (r: Pass)
    ensures o.aborted ==> r == Pass(Some(Aborted), t, stored, [])
    ensures !o.aborted && ReadAt(stored, o).None? ==> r == Pass(Some(StateUnreadable), t, None, [])
    ensures !o.aborted && ReadAt(stored, o).Some? && ReadAt(stored, o).value.status == WorkflowStatus.Completed ==>
      r == Pass(Some(WorkflowDone), t, ReadAt(stored, o), [])
    ensures !o.aborted && ReadAt(stored, o).Some? && ReadAt(stored, o).value.status == Error ==>
      r == Pass(Some(WorkflowFailed), t, ReadAt(stored, o), [])
    ensures r.exit == Some(GateDeclined) ==>
      r.actions == [Reject] && r.stored.Some? && r.stored.value.status == WorkflowStatus.Completed
    ensures r.exit.None? || r.exit == Some(AdvanceBroke) ==>
      var s0 := ReadAt(stored, o);
      var g := GateStep(s0, o.answer, o.stamp);
      var p := PromptIfNeededStep(t, k.stages, g.stored);
      var s2 := AdvancedAt(k.stages, k.def, g.stored, o.signal, o.stamp);
      var a := TryAdvanceStep(p.tracker, k.stages, g.stored, o.signal, AdvanceStored(g.stored, k.def, o.stamp).result, s2);
      var c := RecoverStep(a.tracker, k.caps, k.stages, s2, o.health, o.respawnCount, o.respawned, o.clock);
      var n := NudgeStep(c.tracker, k.caps, k.stages, s2, o.status, o.clock);
      && g.proceed && r.stored == s2
      && (r.exit == Some(AdvanceBroke) <==> a.outcome == Break)
      && (r.exit == Some(AdvanceBroke) ==> r.tracker == a.tracker && r.actions == g.actions + p.actions + a.actions)
      && (r.exit.None? ==> r.tracker == n.tracker && r.actions == g.actions + p.actions + a.actions + c.actions + n.actions)
  {
    if o.aborted then Pass(Some(Aborted), t, stored, [])
    else
      var s0 := ReadAt(stored, o);
      if s0.None? then Pass(Some(StateUnreadable), t, s0, [])
      else if s0.value.status == WorkflowStatus.Completed then Pass(Some(WorkflowDone), t, s0, [])
      else if s0.value.status == Error then Pass(Some(WorkflowFailed), t, s0, [])
      else
        var g := GateStep(s0, o.answer, o.stamp);
        if !g.proceed then Pass(Some(GateDeclined), t, g.stored, g.actions)
        else
          var p := PromptIfNeededStep(t, k.stages, g.stored);
          var s2 := AdvancedAt(k.stages, k.def, g.stored, o.signal, o.stamp);
          var a := TryAdvanceStep(p.tracker, k.stages, g.stored, o.signal, AdvanceStored(g.stored, k.def, o.stamp).result, s2);
          if a.outcome == Break then Pass(Some(AdvanceBroke), a.tracker, s2, g.actions + p.actions + a.actions)
          else
            var c := RecoverStep(a.tracker, k.caps, k.stages, s2, o.health, o.respawnCount, o.respawned, o.clock);
            var n := NudgeStep(c.tracker, k.caps, k.stages, s2, o.status, o.clock);
            Pass(None, n.tracker, s2, g.actions + p.actions + a.actions + c.actions + n.actions)
  }

  /** `acts` done before a run. */
  function Prepend(acts: seq<Action>, r: Pass): Pass {
    r.(actions := acts + r.actions)
  }

  /** `pollLoop` over a finite sequence of passes; `exit == None` when the passes ran out first. */
  function PollRun(k: Knobs, t: Tracker, stored: Option<WorkflowState>, ticks: seq<Tick>): (r: Pass)
    ensures ticks == [] ==> r == Pass(None, t, stored, [])
    ensures ticks != [] && PollTick(k, t, stored, ticks[0]).exit.Some? ==> r == PollTick(k, t, stored, ticks[0])
    decreases |ticks|
  {
    if ticks == [] then Pass(None, t, stored, [])
    else
      var p := PollTick(k, t, stored, ticks[0]);
      if p.exit.Some? then p else Prepend(p.actions, PollRun(k, p.tracker, p.stored, ticks[1..]))
  }

  lemma ActionsAssoc(a: seq<Action>, b: seq<Action>, c: seq<Action>)
    ensures (a + b) + c == a + (b + c)
  {
  }

  // ---------------------------------------------------------------------------
  // Properties of the policy

  /**
   * The indices successive `promptIfNeeded` calls prompt, one record read per
   * call. Whatever records it reads, `promptIfNeeded` alone prompts strictly
   * increasing indices, all above the tracked one: it never prompts the same
   * stage twice unless `tryAdvanceStage` lowered the tracking.
   */
  function PromptedIndices(t: Tracker, stages: seq<StageDefinition>, states: seq<Option<WorkflowState>>): (r: seq<int>)
    ensures forall j :: 0 <= j < |r| ==> r[j] > t.promptedStageIndex
    ensures forall j, l :: 0 <= j < l < |r| ==> r[j] < r[l]
    decreases |states|
  {
    if states == [] then []
    else
      var p := PromptIfNeededStep(t, stages, states[0]);
      (if p.actions != [] then [states[0].value.currentStageIndex] else [])
        + PromptedIndices(p.tracker, stages, states[1..])
  }

  /** The stage `sendFirstPrompt` prompted is not prompted again by `promptIfNeeded`. */
  lemma FirstPromptNotRepeated(stored: Option<WorkflowState>, stages: seq<StageDefinition>, clock: int)
    requires SendFirstPrompt(stored, stages).index != -1
    ensures PromptIfNeededStep(Tracker(SendFirstPrompt(stored, stages).index, clock, 0), stages, stored).actions == []
  {
  }

  /** A stage just approved at its gate is prompted by the `promptIfNeeded` that follows, when its index is new. */
  lemma ApprovedStageIsPrompted(t: Tracker, stages: seq<StageDefinition>, stored: Option<WorkflowState>,
                                answer: Option<string>, now: string)
    requires GateWaiting(stored) && Approves(answer)
    requires stored.value.currentStageIndex < |stages| && stored.value.currentStageIndex > t.promptedStageIndex
    ensures var i := stored.value.currentStageIndex;
      PromptIfNeededStep(t, stages, GateStep(stored, answer, now).stored).actions
        == [PromptAgent(stages[i].role, stages[i].contextReset)]
  {
  }

  /**
   * In a one-stage looping workflow whose stage is gated, finishing the stage
   * loops back to the same index 0, which is not "backwards", so the tracking
   * stays at 0; after the gate is approved `promptIfNeeded` sees `0 > 0` fail
   * and the agent is never told to start the new cycle.
   */
  lemma OneStageGatedLoopIsNotReprompted(t: Tracker, def: WorkflowDefinition, s: WorkflowState, now: string, later: string)
    requires WF(s, def) && s.status == Running && s.stages[0].status == Active
    requires |def.stages| == 1 && def.stages[0].humanGate && def.loopOnChanges && s.cycleCount < def.maxCycles
    requires t.promptedStageIndex == 0
    ensures var after := AdvancedAt(def.stages, def, Some(s), true, now);
      var a := TryAdvanceStep(t, def.stages, Some(s), true, AdvanceStored(Some(s), def, now).result, after);
      var g := GateStep(after, Some("y"), later);
      && a.actions == [RemoveSignal(def.stages[0].role), Advance] && a.tracker == t
      && after.Some? && after.value.currentStageIndex == 0 && after.value.cycleCount == s.cycleCount + 1
      && after.value.stages[0].status == WaitingGate
      && g.proceed && g.stored.Some? && g.stored.value.stages[0].status == Active
      && PromptIfNeededStep(a.tracker, def.stages, g.stored).actions == []
  {
    var e := AdvanceStored(Some(s), def, now);
    assert e == AdvanceState(s, def, now);
    AdvancePreservesWF(s, def, now);
  }

  /**
   * With two or more stages the loop-back is detected: after the last stage
   * the index returns to 0, the tracking resets to -1, and once stage 0's
   * gate is approved `promptIfNeeded` prompts it.
   */
  lemma LoopBackIsReprompted(t: Tracker, def: WorkflowDefinition, s: WorkflowState, now: string, later: string)
    requires WF(s, def) && s.status == Running && s.currentStageIndex == |s.stages| - 1 >= 1
    requires s.stages[s.currentStageIndex].status == Active
    requires def.stages[0].humanGate && def.loopOnChanges && s.cycleCount < def.maxCycles
    ensures var after := AdvancedAt(def.stages, def, Some(s), true, now);
      var a := TryAdvanceStep(t, def.stages, Some(s), true, AdvanceStored(Some(s), def, now).result, after);
      var g := GateStep(after, Some("y"), later);
      && a.tracker.promptedStageIndex == -1
      && PromptIfNeededStep(a.tracker, def.stages, g.stored).actions
           == [PromptAgent(def.stages[0].role, def.stages[0].contextReset)]
  {
    var e := AdvanceStored(Some(s), def, now);
    assert e == AdvanceState(s, def, now);
    AdvancePreservesWF(s, def, now);
  }

  /** The nudge count stays between 0 and the cap (or at 0 when the cap is not positive). */
  predicate NudgeCapped(t: Tracker, caps: Caps) {
    0 <= t.nudgeCount && (t.nudgeCount <= caps.maxNudges || t.nudgeCount == 0)
  }

  /** Every pass keeps the nudge count within the cap. */
  lemma PassKeepsNudgeCap(k: Knobs, t: Tracker, stored: Option<WorkflowState>, o: Tick)
    requires NudgeCapped(t, k.caps)
    ensures NudgeCapped(PollTick(k, t, stored, o).tracker, k.caps)
  {
  }

  /** So does the whole loop. */
  lemma {:induction false} RunKeepsNudgeCap(k: Knobs, t: Tracker, stored: Option<WorkflowState>, ticks: seq<Tick>)
    requires NudgeCapped(t, k.caps)
    ensures NudgeCapped(PollRun(k, t, stored, ticks).tracker, k.caps)
    decreases |ticks|
  {
    if ticks != [] {
      var p := PollTick(k, t, stored, ticks[0]);
      PassKeepsNudgeCap(k, t, stored, ticks[0]);
      if p.exit.None? {
        RunKeepsNudgeCap(k, p.tracker, p.stored, ticks[1..]);
      }
    }
  }

  /** `maybeNudgeAgent` called at each of `clocks` while the agent stays idle on an active stage. */
  function IdleNudges(t: Tracker, caps: Caps, stages: seq<StageDefinition>, state: Option<WorkflowState>, clocks: seq<int>): Turn
    decreases |clocks|
  {
    if clocks == [] then Turn(t, [])
    else
      var n := NudgeStep(t, caps, stages, state, Ok(Adapters.Idle), clocks[0]);
      var rest := IdleNudges(n.tracker, caps, stages, state, clocks[1..]);
      Turn(rest.tracker, n.actions + rest.actions)
  }

  /** Each observation comes more than `interval` after the one before it (the first after `last`). */
  predicate Spaced(last: int, clocks: seq<int>, interval: int) {
    && (|clocks| > 0 ==> clocks[0] - last > interval)
    && forall j :: 0 < j < |clocks| ==> clocks[j] - clocks[j - 1] > interval
  }

  function Min(a: int, b: int): int {
    if a <= b then a else b
  }

  /** At the cap, an idle agent is never nudged again. */
  lemma {:induction false} NoNudgeAtCap(t: Tracker, caps: Caps, stages: seq<StageDefinition>, state: Option<WorkflowState>, clocks: seq<int>)
    requires t.nudgeCount >= caps.maxNudges
    ensures IdleNudges(t, caps, stages, state, clocks).actions == []
    decreases |clocks|
  {
    if clocks != [] {
      NoNudgeAtCap(t, caps, stages, state, clocks[1..]);
    }
  }

  /**
   * An agent that stays idle on an active stage, observed more than an
   * interval apart, is nudged at each observation until the cap: exactly
   * `min(observations, maxNudges - nudgeCount)` nudges, all the same message.
   */
  lemma {:induction false} LongIdleRunNudgesExactly(t: Tracker, caps: Caps, stages: seq<StageDefinition>,
                                                    state: Option<WorkflowState>, clocks: seq<int>)
    requires Watching(state, stages)
    requires 0 <= t.nudgeCount <= caps.maxNudges
    requires Spaced(t.lastActiveAt, clocks, caps.nudgeIntervalMs)
    ensures var r := IdleNudges(t, caps, stages, state, clocks);
      |r.actions| == Min(|clocks|, caps.maxNudges - t.nudgeCount)
      && forall a :: a in r.actions ==> a == SendNudge(stages[state.value.currentStageIndex].role, NudgeMessage)
    decreases |clocks|
  {
    if clocks != [] {
      var n := NudgeStep(t, caps, stages, state, Ok(Adapters.Idle), clocks[0]);
      if t.nudgeCount < caps.maxNudges {
        assert Spaced(n.tracker.lastActiveAt, clocks[1..], caps.nudgeIntervalMs) by {
          if |clocks| > 1 {
            assert clocks[1] - clocks[0] > caps.nudgeIntervalMs;
          }
          forall j | 0 < j < |clocks[1..]|
            ensures clocks[1..][j] - clocks[1..][j - 1] > caps.nudgeIntervalMs
          {
            assert clocks[1..][j] == clocks[j + 1] && clocks[1..][j - 1] == clocks[j];
          }
        }
        LongIdleRunNudgesExactly(n.tracker, caps, stages, state, clocks[1..]);
      } else {
        NoNudgeAtCap(n.tracker, caps, stages, state, clocks[1..]);
      }
    }
  }

  /** One recovery check: the record read, the health probe, `respawn`'s result and the times. */
  datatype Probe = Probe(state: Option<WorkflowState>, health: Result<Runner.ProcessHealth, CrewError>,
                         respawned: Result<Unit, CrewError>, clock: int, stamp: string)

  /** The runner's record of the agent after a series of recovery checks, and how many respawns succeeded. */
  datatype Tally = Tally(info: Runner.AgentInfo, respawns: nat)

  /**
   * `maybeRecoverAgent` called once per probe against the runner's own record
   * of the agent: each successful respawn is `respawn`'s edit of that record.
   */
  function RecoverRun(t: Tracker, caps: Caps, stages: seq<StageDefinition>, info: Runner.AgentInfo, probes: seq<Probe>): Tally
    decreases |probes|
  {
    if probes == [] then Tally(info, 0)
    else
      var p := probes[0];
      var c := RecoverStep(t, caps, stages, p.state, p.health, Some(info.respawnCount), p.respawned, p.clock);
      var succeeded := Recovers(caps, stages, p.state, p.health, Some(info.respawnCount)) && p.respawned.Ok?;
      var rest := RecoverRun(c.tracker, caps, stages, if succeeded then Runner.RespawnedInfo(info, p.stamp) else info, probes[1..]);
      Tally(rest.info, rest.respawns + (if succeeded then 1 else 0))
  }

  /**
   * However often the agent dies, automatic respawns stop at the cap: at
   * most `maxRespawns - respawnCount` of them succeed, and the runner's
   * count grows by exactly their number.
   */
  lemma {:induction false} RespawnsBounded(t: Tracker, caps: Caps, stages: seq<StageDefinition>, info: Runner.AgentInfo, probes: seq<Probe>)
    ensures var r := RecoverRun(t, caps, stages, info, probes);
      r.respawns <= (if caps.maxRespawns > info.respawnCount then caps.maxRespawns - info.respawnCount else 0)
      && r.info.respawnCount == info.respawnCount + r.respawns
    decreases |probes|
  {
    if probes != [] {
      var p := probes[0];
      var c := RecoverStep(t, caps, stages, p.state, p.health, Some(info.respawnCount), p.respawned, p.clock);
      var succeeded := Recovers(caps, stages, p.state, p.health, Some(info.respawnCount)) && p.respawned.Ok?;
      RespawnsBounded(c.tracker, caps, stages, if succeeded then Runner.RespawnedInfo(info, p.stamp) else info, probes[1..]);
    }
  }

  /**
   * A pass that finds no foreign write keeps the engine's invariant: the
   * gate decision and `advance` are the engine's own operations.
   */
  lemma PassKeepsWF(k: Knobs, t: Tracker, stored: Option<WorkflowState>, o: Tick)
    requires o.replaced.None? && stored.Some? && WF(stored.value, k.def)
    ensures PollTick(k, t, stored, o).stored.Some? && WF(PollTick(k, t, stored, o).stored.value, k.def)
  {
    var s := stored.value;
    GateDecisionsPreserveWF(s, k.def, o.stamp);
    if !o.aborted && s.status != WorkflowStatus.Completed && s.status != Error {
      var g := GateStep(stored, o.answer, o.stamp);
      if g.proceed && Signalled(g.stored, k.stages, o.signal) && g.stored.value.status == Running {
        AdvancePreservesWF(g.stored.value, k.def, o.stamp);
      }
    }
  }

  /** So does the whole loop, as long as no pass finds a foreign write. */
  lemma {:induction false} RunKeepsWF(k: Knobs, t: Tracker, stored: Option<WorkflowState>, ticks: seq<Tick>)
    requires stored.Some? && WF(stored.value, k.def)
    requires forall i :: 0 <= i < |ticks| ==> ticks[i].replaced.None?
    ensures PollRun(k, t, stored, ticks).stored.Some? && WF(PollRun(k, t, stored, ticks).stored.value, k.def)
    decreases |ticks|
  {
    if ticks != [] {
      var p := PollTick(k, t, stored, ticks[0]);
      PassKeepsWF(k, t, stored, ticks[0]);
      if p.exit.None? {
        assert forall i :: 0 <= i < |ticks[1..]| ==> ticks[1..][i] == ticks[i + 1];
        RunKeepsWF(k, p.tracker, p.stored, ticks[1..]);
      }
    }
  }

  // ---------------------------------------------------------------------------
  // The loop object

  /** `PollContext`: the engine, the stage definitions, the caps and the tracker the steps update. */
  class PollContext {
    const engine: WorkflowEngine
    const stages: seq<StageDefinition>
    const nudgeIntervalMs: int
    const maxNudges: int
    const maxRespawns: int
    var promptedStageIndex: int
    var lastActiveAt: int
    var nudgeCount: int

    function Limits(): Caps {
      Caps(nudgeIntervalMs, maxNudges, maxRespawns)
    }

    function Progress(): Tracker
      reads this
    {
      Tracker(promptedStageIndex, lastActiveAt, nudgeCount)
    }

    /** The object `pollLoop` builds: the idle clock starts now with no nudges sent. */
    constructor(engine: WorkflowEngine, stages: seq<StageDefinition>, promptedStageIndex: int,
                nudgeIntervalMs: int, maxNudges: int, maxRespawns: int, now: int)
      ensures this.engine == engine && this.stages == stages
      ensures Limits() == Caps(nudgeIntervalMs, maxNudges, maxRespawns)
      ensures Progress() == Tracker(promptedStageIndex, now, 0)
    {
      this.engine := engine;
      this.stages := stages;
      this.nudgeIntervalMs := nudgeIntervalMs;
      this.maxNudges := maxNudges;
      this.maxRespawns := maxRespawns;
      this.promptedStageIndex := promptedStageIndex;
      lastActiveAt := now;
      nudgeCount := 0;
    }

    /** `promptIfNeeded`. */
    method PromptIfNeeded() returns (actions: seq<Action>)
      modifies this
      ensures Turn(Progress(), actions) == PromptIfNeededStep(old(Progress()), stages, engine.stored)
    {
      actions := [];
      var state := engine.stored;
      if state.None? || state.value.status != Running {
        return;
      }
      var i := state.value.currentStageIndex;
      if 0 <= i < |state.value.stages| && state.value.stages[i].status == Active && 0 <= i < |stages|
         && i > promptedStageIndex {
        actions := [PromptAgent(stages[i].role, stages[i].contextReset)];
        promptedStageIndex := i;
      }
    }

    /** `tryAdvanceStage`, asking the engine itself to advance. */
    method TryAdvanceStage(signal: bool, now: string) returns (outcome: Outcome, actions: seq<Action>)
      requires engine.definition.Some?
      modifies this, engine
      ensures engine.definition == old(engine.definition)
      ensures engine.stored == AdvancedAt(stages, old(engine.definition).value, old(engine.stored), signal, now)
      ensures AdvanceTurn(outcome, Progress(), actions) ==
        TryAdvanceStep(old(Progress()), stages, old(engine.stored), signal,
                       AdvanceStored(old(engine.stored), old(engine.definition).value, now).result, engine.stored)
    {
      var state := engine.stored;
      if state.None? {
        return Break, [];
      }
      var s := state.value;
      var i := s.currentStageIndex;
      if !(0 <= i < |s.stages|) || s.stages[i].status != Active || !(0 <= i < |stages|) || !signal {
        return Continue, [];
      }
      actions := [RemoveSignal(stages[i].role), Advance];
      var advanced := engine.Advance(now);
      if advanced.Err? {
        return Break, actions;
      }
      outcome := Continue;
      var next := engine.stored;
      if next.None? || next.value.status != Running {
        return;
      }
      var j := next.value.currentStageIndex;
      if j < i {
        promptedStageIndex := -1;
      }
      if 0 <= j < |next.value.stages| && next.value.stages[j].status == Active && 0 <= j < |stages| {
        actions := actions + [PromptAgent(stages[j].role, stages[j].contextReset)];
        promptedStageIndex := j;
      }
    }

    /** `maybeNudgeAgent`, given `getStatus`'s result and the time. */
    method MaybeNudgeAgent(status: Result<Adapters.AgentStatus, CrewError>, now: int) returns (actions: seq<Action>)
      modifies this
      ensures Turn(Progress(), actions) == NudgeStep(old(Progress()), Limits(), stages, engine.stored, status, now)
    {
      actions := [];
      var state := engine.stored;
      if state.None? || state.value.status != Running {
        return;
      }
      var i := state.value.currentStageIndex;
      if !(0 <= i < |state.value.stages|) || state.value.stages[i].status != Active || !(0 <= i < |stages|) {
        return;
      }
      if status.Err? {
        return;
      }
      if status.value == Adapters.Active {
        lastActiveAt := now;
        nudgeCount := 0;
        return;
      }
      if status.value == Adapters.Idle && now - lastActiveAt > nudgeIntervalMs && nudgeCount < maxNudges {
        nudgeCount := nudgeCount + 1;
        actions := [SendNudge(stages[i].role, NudgeMessage)];
        lastActiveAt := now;
      }
    }

    /** `maybeRecoverAgent`, given the health probe, the runner's respawn count and `respawn`'s result. */
    method MaybeRecoverAgent(health: Result<Runner.ProcessHealth, CrewError>, respawnCount: Option<nat>,
                             respawned: Result<Unit, CrewError>, now: int) returns (actions: seq<Action>)
      modifies this
      ensures Turn(Progress(), actions) ==
        RecoverStep(old(Progress()), Limits(), stages, engine.stored, health, respawnCount, respawned, now)
    {
      actions := [];
      var state := engine.stored;
      if state.None? || state.value.status != Running {
        return;
      }
      var i := state.value.currentStageIndex;
      if !(0 <= i < |stages|) {
        return;
      }
      var d := stages[i];
      if health != Ok(Runner.Dead) {
        return;
      }
      if respawnCount.Some? && respawnCount.value >= maxRespawns {
        return;
      }
      actions := [Respawn(d.role)];
      if respawned.Err? {
        return;
      }
      actions := actions + [WaitForReady(d.role, RespawnReadyTimeoutMs), RecordPid(d.role), PersistRegistry,
                            PromptAgent(d.role, d.contextReset)];
      lastActiveAt := now;
      nudgeCount := 0;
    }
  }

  /** `handleGate`: the engine approves or rejects a waiting gate. */
  method HandleGate(engine: WorkflowEngine, answer: Option<string>, now: string) returns (proceed: bool, actions: seq<Action>)
    modifies engine
    ensures engine.definition == old(engine.definition)
    ensures GateTurn(proceed, engine.stored, actions) == GateStep(old(engine.stored), answer, now)
  {
    var current := Workflow.GetCurrentStage(engine.stored);
    if current.Err? || current.value.None? || current.value.value.status != WaitingGate {
      return true, [];
    }
    if answer == Some("y") || answer == Some("Y") {
      var _ := engine.ApproveGate(now);
      return true, [Approve];
    }
    var _ := engine.RejectGate(now);
    return false, [Reject];
  }

  /** The body of `pollLoop`'s `while`: one pass, ending with why the loop stops, if it does. */
  method PollPass(ctx: PollContext, def: WorkflowDefinition, o: Tick) returns (exit: Option<Exit>, actions: seq<Action>)
    requires ctx.engine.definition == Some(def)
    modifies ctx, ctx.engine
    ensures ctx.engine.definition == Some(def)
    ensures var r := PollTick(Knobs(ctx.stages, def, ctx.Limits()), old(ctx.Progress()), old(ctx.engine.stored), o);
      exit == r.exit && actions == r.actions && ctx.engine.stored == r.stored && ctx.Progress() == r.tracker
  {
    var engine := ctx.engine;
    actions := [];
    if o.aborted {
      return Some(Aborted), [];
    }
    if o.replaced.Some? {
      engine.stored := o.replaced.value;
    }
    var state := engine.stored;
    if state.None? {
      return Some(StateUnreadable), [];
    }
    if state.value.status == WorkflowStatus.Completed {
      return Some(WorkflowDone), [];
    }
    if state.value.status == Error {
      return Some(WorkflowFailed), [];
    }
    var proceed, gateActs := HandleGate(engine, o.answer, o.stamp);
    if !proceed {
      return Some(GateDeclined), gateActs;
    }
    var promptActs := ctx.PromptIfNeeded();
    var outcome, advanceActs := ctx.TryAdvanceStage(o.signal, o.stamp);
    if outcome == Break {
      return Some(AdvanceBroke), gateActs + promptActs + advanceActs;
    }
    var recoverActs := ctx.MaybeRecoverAgent(o.health, o.respawnCount, o.respawned, o.clock);
    var nudgeActs := ctx.MaybeNudgeAgent(o.status, o.clock);
    exit := None;
    actions := gateActs + promptActs + advanceActs + recoverActs + nudgeActs;
  }

  /** `pollLoop`: run passes until one of them stops the loop or the passes run out. */
  method PollLoop(engine: WorkflowEngine, stages: seq<StageDefinition>, promptedStageIndex: int,
                  nudgeIntervalMs: int, maxNudges: int, maxRespawns: int, startClock: int, ticks: seq<Tick>)
    returns (exit: Option<Exit>, actions: seq<Action>)
    requires engine.definition.Some?
    modifies engine
    ensures engine.definition == old(engine.definition)
    ensures var r := PollRun(Knobs(stages, old(engine.definition).value, Caps(nudgeIntervalMs, maxNudges, maxRespawns)),
                             Tracker(promptedStageIndex, startClock, 0), old(engine.stored), ticks);
      exit == r.exit && actions == r.actions && engine.stored == r.stored
  {
    var ctx := new PollContext(engine, stages, promptedStageIndex, nudgeIntervalMs, maxNudges, maxRespawns, startClock);
    var def := engine.definition.value;
    ghost var k := Knobs(stages, def, ctx.Limits());
    ghost var whole := PollRun(k, ctx.Progress(), engine.stored, ticks);
    exit := None;
    actions := [];
    var i := 0;
    while i < |ticks|
      invariant 0 <= i <= |ticks|
      invariant ctx.engine == engine && ctx.stages == stages && ctx.Limits() == k.caps
      invariant engine.definition == Some(def)
      invariant whole == Prepend(actions, PollRun(k, ctx.Progress(), engine.stored, ticks[i..]))
    {
      ghost var rest := PollRun(k, ctx.Progress(), engine.stored, ticks[i..]);
      assert ticks[i..][0] == ticks[i] && ticks[i..][1..] == ticks[i + 1..];
      ghost var acts0 := actions;
      var passExit, passActs := PollPass(ctx, def, ticks[i]);
      if passExit.Some? {
        assert rest == Pass(passExit, ctx.Progress(), engine.stored, passActs);
        return passExit, actions + passActs;
      }
      assert rest == Prepend(passActs, PollRun(k, ctx.Progress(), engine.stored, ticks[i + 1..]));
      actions := actions + passActs;
      ActionsAssoc(acts0, passActs, PollRun(k, ctx.Progress(), engine.stored, ticks[i + 1..]).actions);
      i := i + 1;
    }
  }
}

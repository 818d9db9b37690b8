/**
 * The workflow stage machine as values: the persisted `WorkflowState` record,
 * the definition lookup, and one function per engine operation describing what
 * the operation writes back and what it returns. The class in `engine.dfy`
 * performs these edits in place and is proved to agree with them; the lemmas
 * here state the invariant every operation keeps.
 */
module Workflow {
  import opened Kernel
  import opened Schema
  import Text

  datatype StageStatus = Pending | Active | WaitingGate | Completed

  datatype WorkflowStatus = Idle | Running | Paused | Completed | Error

  datatype StageState = StageState(name: string, status: StageStatus)

  /** The record kept in `state.json`. */
  datatype WorkflowState = WorkflowState(
    workflowName: string,
    goal: string,
    status: WorkflowStatus,
    currentStageIndex: int,
    cycleCount: int,
    stages: seq<StageState>,
    startedAt: string,
    updatedAt: string)

  /** What an operation does to the state file: the record it writes, if any, and its result. */
  datatype Effect = Effect(write: Option<WorkflowState>, result: Result<Unit, CrewError>)

  /** The state after an in-memory edit, and the result the edit reports. */
  datatype Step = Step(state: WorkflowState, result: Result<Unit, CrewError>)

  /** A `<name>.yaml` file in one search directory, after YAML decoding. */
  datatype TemplateFile =
    | Unparsable              // not YAML at all: the lookup moves on to the next directory
    | Mistyped                // YAML whose fields have the wrong types: the schema rejects it
    | Document(raw: RawDefinition)

  /** The state file after an effect: replaced when the effect writes, untouched otherwise. */
  function Apply(stored: Option<WorkflowState>, e: Effect): Option<WorkflowState> {
    if e.write.Some? then e.write else stored
  }

  /** The status a stage takes when it becomes current. */
  function ActivationStatus(d: StageDefinition): (s: StageStatus)
    ensures s == WaitingGate <==> d.humanGate
    ensures s == Active <==> !d.humanGate
  {
    if d.humanGate then WaitingGate else Active
  }

  predicate AllCompleted(stages: seq<StageState>) {
    forall k :: 0 <= k < |stages| ==> stages[k].status == StageStatus.Completed
  }

  predicate InRange(s: WorkflowState) {
    0 <= s.currentStageIndex < |s.stages|
  }

  /** Stages, index and cycle counter are those of `t`: only status or timestamps differ. */
  predicate SameProgress(s: WorkflowState, t: WorkflowState) {
    s.stages == t.stages && s.currentStageIndex == t.currentStageIndex
    && s.cycleCount == t.cycleCount && s.workflowName == t.workflowName && s.goal == t.goal
    && s.startedAt == t.startedAt
  }

  // ---------------------------------------------------------------------------
  // Definition lookup

  /** A file the lookup stops at: present and YAML. */
  predicate Readable(dir: map<string, TemplateFile>, name: string) {
    name in dir && !dir[name].Unparsable?
  }

  /** What a readable file yields: the schema check of its contents. */
  function Decode(f: TemplateFile): Result<WorkflowDefinition, CrewError> {
    match f
    case Unparsable => Err(WorkflowNotFound)
    case Mistyped => Err(InvalidDefinition)
    case Document(raw) => ParseDefinition(raw)
  }

  /**
   * The search over the directories in order: the first readable file
   * decides; when none is readable the workflow is not found.
   */
  function SearchDefinition(paths: seq<map<string, TemplateFile>>, name: string): (r: Result<WorkflowDefinition, CrewError>)
    ensures r == Err(WorkflowNotFound) <==> forall k :: 0 <= k < |paths| ==> !Readable(paths[k], name)
    ensures r.Ok? ==> ValidDefinition(r.value)
    ensures r.Err? ==> r.error == WorkflowNotFound || r.error == InvalidDefinition
    ensures forall k :: 0 <= k < |paths| && Readable(paths[k], name)
              && (forall j :: 0 <= j < k ==> !Readable(paths[j], name))
              ==> r == Decode(paths[k][name])
    decreases |paths|
  {
    if paths == [] then Err(WorkflowNotFound)
    else if !Readable(paths[0], name) then
      var r := SearchDefinition(paths[1..], name);
      assert forall k :: 1 <= k < |paths| ==> paths[k] == paths[1..][k - 1];
      r
    else Decode(paths[0][name])
  }

  /** `loadDefinition`: the name must match `^[a-zA-Z0-9_-]+$` before any file is read. */
  function LoadDefinition(paths: seq<map<string, TemplateFile>>, name: string): (r: Result<WorkflowDefinition, CrewError>)
    ensures !Text.IsValidName(name) ==> r == Err(InvalidDefinition)
    ensures Text.IsValidName(name) ==> r == SearchDefinition(paths, name)
    ensures r.Ok? ==> Text.IsValidName(name) && ValidDefinition(r.value)
  {
    if !Text.IsValidName(name) then Err(InvalidDefinition) else SearchDefinition(paths, name)
  }

  /** `ensureDefinition`: the cached definition when there is one, otherwise a fresh lookup. */
  function EnsureDefinition(cache: Option<WorkflowDefinition>, paths: seq<map<string, TemplateFile>>, name: string): (r: Result<WorkflowDefinition, CrewError>)
    ensures cache.Some? ==> r == Ok(cache.value)
    ensures cache.None? ==> r == LoadDefinition(paths, name)
  {
    if cache.Some? then Ok(cache.value) else LoadDefinition(paths, name)
  }

  /** The cache after `ensureDefinition`: filled by a successful lookup, otherwise unchanged. */
  function CacheAfter(cache: Option<WorkflowDefinition>, loaded: Result<WorkflowDefinition, CrewError>): Option<WorkflowDefinition> {
    if cache.Some? then cache else if loaded.Ok? then Some(loaded.value) else None
  }

  // ---------------------------------------------------------------------------
  // Operations

  /** The fresh record `start` writes: one pending stage per definition stage, the first activated. */
  function StartState(name: string, goal: string, def: WorkflowDefinition, now: string): (r: Result<WorkflowState, CrewError>)
    ensures r.Err? <==> |def.stages| == 0
    ensures r.Err? ==> r.error == InvalidDefinition
    ensures r.Ok? ==> r.value.status == Running && r.value.currentStageIndex == 0 && r.value.cycleCount == 1
    ensures r.Ok? ==> r.value.workflowName == name && r.value.goal == goal
    ensures r.Ok? ==> r.value.startedAt == now && r.value.updatedAt == now
    ensures r.Ok? ==> |r.value.stages| == |def.stages|
    ensures r.Ok? ==> forall i :: 0 <= i < |def.stages| ==> r.value.stages[i].name == def.stages[i].name
    ensures r.Ok? ==> r.value.stages[0].status == ActivationStatus(def.stages[0])
    ensures r.Ok? ==> forall i :: 1 <= i < |def.stages| ==> r.value.stages[i].status == Pending
  {
    if |def.stages| == 0 then Err(InvalidDefinition)
    else
      var stages := seq(|def.stages|, i requires 0 <= i < |def.stages| =>
        StageState(def.stages[i].name, if i == 0 then ActivationStatus(def.stages[0]) else Pending));
      Ok(WorkflowState(name, goal, Running, 0, 1, stages, now, now))
  }

  /** Every stage reset to `pending`, names kept. */
  function AllPending(stages: seq<StageState>): (r: seq<StageState>)
    ensures |r| == |stages|
    ensures forall i :: 0 <= i < |stages| ==> r[i] == StageState(stages[i].name, Pending)
  {
    seq(|stages|, i requires 0 <= i < |stages| => StageState(stages[i].name, Pending))
  }

  /**
   * `evaluateLoopOrClose`, run after the last stage has been marked completed:
   * close the workflow, fail at the cycle cap, or start the next cycle.
   */
  function LoopOrClose(s: WorkflowState, def: WorkflowDefinition): (o: Step)
    ensures o.state.workflowName == s.workflowName && o.state.goal == s.goal
      && o.state.startedAt == s.startedAt && o.state.updatedAt == s.updatedAt
    ensures !def.loopOnChanges ==>
      (o.result == Ok(Unit) && o.state.status == WorkflowStatus.Completed
       && o.state.stages == s.stages && o.state.currentStageIndex == s.currentStageIndex
       && o.state.cycleCount == s.cycleCount)
    ensures def.loopOnChanges && s.cycleCount >= def.maxCycles ==>
      (o.result == Err(MaxCyclesExceeded) && o.state.status == Error
       && o.state.stages == s.stages && o.state.currentStageIndex == s.currentStageIndex
       && o.state.cycleCount == s.cycleCount)
    ensures def.loopOnChanges && s.cycleCount < def.maxCycles ==>
      (o.state.status == s.status && o.state.cycleCount == s.cycleCount + 1
       && o.state.currentStageIndex == 0 && |o.state.stages| == |s.stages|
       && (forall i :: 0 <= i < |s.stages| ==> o.state.stages[i].name == s.stages[i].name)
       && (forall i :: 1 <= i < |s.stages| ==> o.state.stages[i].status == Pending)
       && (o.result.Ok? <==> |s.stages| >= 1 && |def.stages| >= 1)
       && (o.result.Err? ==> o.result.error == InvalidDefinition && o.state.stages == AllPending(s.stages))
       && (o.result.Ok? ==> o.state.stages[0].status == ActivationStatus(def.stages[0])))
  {
    if !def.loopOnChanges then Step(s.(status := WorkflowStatus.Completed), Ok(Unit))
    else if s.cycleCount >= def.maxCycles then Step(s.(status := Error), Err(MaxCyclesExceeded))
    else
      var reset := s.(cycleCount := s.cycleCount + 1, currentStageIndex := 0, stages := AllPending(s.stages));
      if |reset.stages| == 0 || |def.stages| == 0 then Step(reset, Err(InvalidDefinition))
      else Step(reset.(stages := reset.stages[0 := StageState(reset.stages[0].name, ActivationStatus(def.stages[0]))]), Ok(Unit))
  }

  /**
   * `advance` on a running record with its definition: complete the current
   * stage, then activate the next one or loop-or-close. Nothing is written
   * when the index is out of range, the gate is pending or the definition is
   * shorter than the record; a loop-or-close failure is still written.
   */
  function AdvanceState(s: WorkflowState, def: WorkflowDefinition, now: string): (e: Effect)
    ensures !InRange(s) ==> e == Effect(None, Err(InvalidDefinition))
    ensures InRange(s) && s.stages[s.currentStageIndex].status == WaitingGate ==> e == Effect(None, Err(GatePending))
    ensures e.write.None? <==>
      (e.result.Err? && e.result.error != MaxCyclesExceeded
       && !(e.result.error == InvalidDefinition && InRange(s) && s.currentStageIndex + 1 == |s.stages|))
    ensures e.write.Some? ==>
      (InRange(s) && e.write.value.updatedAt == now
       && e.write.value.workflowName == s.workflowName && e.write.value.goal == s.goal
       && |e.write.value.stages| == |s.stages|
       && forall i :: 0 <= i < |s.stages| ==> e.write.value.stages[i].name == s.stages[i].name)
    ensures e.write.Some? && s.currentStageIndex + 1 < |s.stages| ==>
      var i := s.currentStageIndex;
      var t := e.write.value;
      (e.result == Ok(Unit) && t.currentStageIndex == i + 1 && t.cycleCount == s.cycleCount
       && i + 1 < |def.stages| && t.status == s.status && t.stages[i].status == StageStatus.Completed
       && t.stages[i + 1].status == ActivationStatus(def.stages[i + 1])
       && forall j :: 0 <= j < |s.stages| && j != i && j != i + 1 ==> t.stages[j] == s.stages[j])
  {
    if !InRange(s) then Effect(None, Err(InvalidDefinition))
    else
      var i := s.currentStageIndex;
      if s.stages[i].status == WaitingGate then Effect(None, Err(GatePending))
      else
        var done := s.(stages := s.stages[i := StageState(s.stages[i].name, StageStatus.Completed)]);
        if i + 1 < |s.stages| then
          if i + 1 >= |def.stages| then Effect(None, Err(InvalidDefinition))
          else
            var t := done.(currentStageIndex := i + 1,
                           stages := done.stages[i + 1 := StageState(done.stages[i + 1].name, ActivationStatus(def.stages[i + 1]))],
                           updatedAt := now);
            Effect(Some(t), Ok(Unit))
        else
          var o := LoopOrClose(done, def);
          Effect(Some(o.state.(updatedAt := now)), o.result)
  }

  /**
   * `advance` from the last stage: the stage is marked completed and then the
   * workflow closes, stops in `error` at the cycle cap (and that record is
   * still written), or starts the next cycle at stage 0 with the rest pending.
   */
  lemma AdvanceFromLastStage(s: WorkflowState, def: WorkflowDefinition, now: string)
    requires InRange(s) && s.currentStageIndex + 1 == |s.stages|
    requires s.stages[s.currentStageIndex].status != WaitingGate
    ensures var e := AdvanceState(s, def, now);
      var i := s.currentStageIndex;
      var done := s.stages[i := StageState(s.stages[i].name, StageStatus.Completed)];
      e.write.Some? && e.write.value.updatedAt == now
      && (!def.loopOnChanges ==>
            e.result == Ok(Unit) && e.write.value.status == WorkflowStatus.Completed
            && e.write.value.stages == done && e.write.value.currentStageIndex == i
            && e.write.value.cycleCount == s.cycleCount)
      && (def.loopOnChanges && s.cycleCount >= def.maxCycles ==>
            e.result == Err(MaxCyclesExceeded) && e.write.value.status == Error
            && e.write.value.stages == done && e.write.value.cycleCount == s.cycleCount)
      && (def.loopOnChanges && s.cycleCount < def.maxCycles && |def.stages| >= 1 ==>
            e.result == Ok(Unit) && e.write.value.status == s.status
            && e.write.value.cycleCount == s.cycleCount + 1 && e.write.value.currentStageIndex == 0
            && e.write.value.stages[0] == StageState(s.stages[0].name, ActivationStatus(def.stages[0]))
            && forall j :: 1 <= j < |s.stages| ==> e.write.value.stages[j] == StageState(s.stages[j].name, Pending))
  {
  }

  /** `ensureRunning`: the stored record when it is readable and running. */
  function EnsureRunning(stored: Option<WorkflowState>): (r: Result<WorkflowState, CrewError>)
    ensures r.Ok? <==> stored.Some? && stored.value.status == Running
    ensures r.Ok? ==> r.value == stored.value
    ensures stored.None? ==> r == Err(StateUnavailable)
    ensures stored.Some? && stored.value.status != Running ==> r == Err(NotRunning)
  {
    if stored.None? then Err(StateUnavailable)
    else if stored.value.status != Running then Err(NotRunning)
    else Ok(stored.value)
  }

  /** `pause`: running becomes paused; nothing else changes. */
  function Pause(stored: Option<WorkflowState>, now: string): (e: Effect)
    ensures e.result.Ok? <==> stored.Some? && stored.value.status == Running
    ensures e.result.Err? ==> e.write.None? && e.result == Err(EnsureRunning(stored).error)
    ensures e.result.Ok? ==>
      (e.write.Some? && e.write.value.status == Paused
       && e.write.value.updatedAt == now && SameProgress(e.write.value, stored.value))
  {
    var r := EnsureRunning(stored);
    if r.Err? then Effect(None, Err(r.error))
    else Effect(Some(r.value.(status := Paused, updatedAt := now)), Ok(Unit))
  }

  /** `resume`: only a paused record becomes running. */
  function Resume(stored: Option<WorkflowState>, now: string): (e: Effect)
    ensures e.result.Ok? <==> stored.Some? && stored.value.status == Paused
    ensures stored.None? ==> e == Effect(None, Err(StateUnavailable))
    ensures stored.Some? && stored.value.status != Paused ==> e == Effect(None, Err(NotRunning))
    ensures e.result.Ok? ==>
      (e.write.Some? && e.write.value.status == Running
       && e.write.value.updatedAt == now && SameProgress(e.write.value, stored.value))
  {
    if stored.None? then Effect(None, Err(StateUnavailable))
    else if stored.value.status != Paused then Effect(None, Err(NotRunning))
    else Effect(Some(stored.value.(status := Running, updatedAt := now)), Ok(Unit))
  }

  /** `stop`: a running or paused record becomes completed. */
  function Stop(stored: Option<WorkflowState>, now: string): (e: Effect)
    ensures e.result.Ok? <==> stored.Some? && stored.value.status in {Running, Paused}
    ensures stored.None? ==> e == Effect(None, Err(StateUnavailable))
    ensures stored.Some? && stored.value.status !in {Running, Paused} ==> e == Effect(None, Err(NotRunning))
    ensures e.result.Ok? ==>
      (e.write.Some? && e.write.value.status == WorkflowStatus.Completed
       && e.write.value.updatedAt == now && SameProgress(e.write.value, stored.value))
  {
    if stored.None? then Effect(None, Err(StateUnavailable))
    else if stored.value.status != Running && stored.value.status != Paused then Effect(None, Err(NotRunning))
    else Effect(Some(stored.value.(status := WorkflowStatus.Completed, updatedAt := now)), Ok(Unit))
  }

  /** The current stage of a running record is waiting at its gate. */
  predicate AtGate(s: WorkflowState) {
    InRange(s) && s.stages[s.currentStageIndex].status == WaitingGate
  }

  /** `approveGate`: a waiting current stage becomes active. */
  function ApproveGate(stored: Option<WorkflowState>, now: string): (e: Effect)
    ensures e.result.Ok? <==> stored.Some? && stored.value.status == Running && AtGate(stored.value)
    ensures EnsureRunning(stored).Err? ==> e == Effect(None, Err(EnsureRunning(stored).error))
    ensures EnsureRunning(stored).Ok? && !AtGate(stored.value) ==> e == Effect(None, Err(GatePending))
    ensures e.result.Ok? ==> e.write.Some?
    ensures e.result.Ok? ==>
      var s := stored.value;
      var t := e.write.value;
      t.status == Running && t.updatedAt == now
      && t.currentStageIndex == s.currentStageIndex && t.cycleCount == s.cycleCount
      && |t.stages| == |s.stages| && t.stages[s.currentStageIndex] == StageState(s.stages[s.currentStageIndex].name, Active)
      && forall j :: 0 <= j < |s.stages| && j != s.currentStageIndex ==> t.stages[j] == s.stages[j]
  {
    var r := EnsureRunning(stored);
    if r.Err? then Effect(None, Err(r.error))
    else if !AtGate(r.value) then Effect(None, Err(GatePending))
    else
      var s := r.value;
      var i := s.currentStageIndex;
      Effect(Some(s.(stages := s.stages[i := StageState(s.stages[i].name, Active)], updatedAt := now)), Ok(Unit))
  }

  /** `rejectGate`: a waiting current stage closes the workflow; the stages stay as they were. */
  function RejectGate(stored: Option<WorkflowState>, now: string): (e: Effect)
    ensures e.result.Ok? <==> stored.Some? && stored.value.status == Running && AtGate(stored.value)
    ensures EnsureRunning(stored).Err? ==> e == Effect(None, Err(EnsureRunning(stored).error))
    ensures EnsureRunning(stored).Ok? && !AtGate(stored.value) ==> e == Effect(None, Err(GatePending))
    ensures e.result.Ok? ==>
      (e.write.Some? && e.write.value.status == WorkflowStatus.Completed
       && e.write.value.updatedAt == now && SameProgress(e.write.value, stored.value))
  {
    var r := EnsureRunning(stored);
    if r.Err? then Effect(None, Err(r.error))
    else if !AtGate(r.value) then Effect(None, Err(GatePending))
    else Effect(Some(r.value.(status := WorkflowStatus.Completed, updatedAt := now)), Ok(Unit))
  }

  /** `activateStageAt`: give stage `i` its activation status, when both the record and the definition have it. */
  function ActivateStageAt(s: WorkflowState, def: WorkflowDefinition, i: int): (t: WorkflowState)
    ensures t.status == s.status && t.currentStageIndex == s.currentStageIndex && t.cycleCount == s.cycleCount
    ensures |t.stages| == |s.stages|
    ensures forall j :: 0 <= j < |s.stages| ==> t.stages[j].name == s.stages[j].name
    ensures forall j :: 0 <= j < |s.stages| && j != i ==> t.stages[j] == s.stages[j]
    ensures 0 <= i < |s.stages| && i < |def.stages| ==> t.stages[i].status == ActivationStatus(def.stages[i])
    ensures !(0 <= i < |s.stages| && i < |def.stages|) ==> t == s
  {
    if 0 <= i < |s.stages| && i < |def.stages| then
      s.(stages := s.stages[i := StageState(s.stages[i].name, ActivationStatus(def.stages[i]))])
    else s
  }

  /** The first stage at or after `from` that is not completed. */
  function FirstOpenFrom(stages: seq<StageState>, from: nat): (r: Option<nat>)
    ensures r.Some? ==> from <= r.value < |stages| && stages[r.value].status != StageStatus.Completed
    ensures r.Some? ==> forall j :: from <= j < r.value ==> stages[j].status == StageStatus.Completed
    ensures r.None? ==> forall j :: from <= j < |stages| ==> stages[j].status == StageStatus.Completed
    decreases |stages| - from
  {
    if from >= |stages| then None
    else if stages[from].status != StageStatus.Completed then Some(from)
    else FirstOpenFrom(stages, from + 1)
  }

  /** `activateNextPending`: move to and activate the first later stage that is not completed. */
  function NextPending(s: WorkflowState, def: WorkflowDefinition): WorkflowState
    requires InRange(s)
  {
    match FirstOpenFrom(s.stages, s.currentStageIndex + 1)
    case None => s
    case Some(i) => ActivateStageAt(s.(currentStageIndex := i), def, i)
  }

  /** `activateResumeStage`: what `continueWorkflow` does to the current stage. */
  function ResumeStage(s: WorkflowState, def: WorkflowDefinition): WorkflowState {
    if !InRange(s) then s
    else if s.stages[s.currentStageIndex].status == StageStatus.Completed then NextPending(s, def)
    else if s.stages[s.currentStageIndex].status == Pending then ActivateStageAt(s, def, s.currentStageIndex)
    else s
  }

  /** The record `continueWorkflow` writes once the checks have passed and the definition has loaded. */
  function ContinueState(s: WorkflowState, def: WorkflowDefinition, now: string): (t: WorkflowState)
    ensures t.status == Running && t.updatedAt == now && t.cycleCount == s.cycleCount
    ensures t.workflowName == s.workflowName && t.goal == s.goal && |t.stages| == |s.stages|
    ensures InRange(s) && s.stages[s.currentStageIndex].status in {Active, WaitingGate} ==>
      t.stages == s.stages && t.currentStageIndex == s.currentStageIndex
    ensures InRange(s) && s.stages[s.currentStageIndex].status == Pending ==>
      t.currentStageIndex == s.currentStageIndex
      && (s.currentStageIndex < |def.stages| ==> t.stages[s.currentStageIndex].status == ActivationStatus(def.stages[s.currentStageIndex]))
      && (forall j :: 0 <= j < |s.stages| && j != s.currentStageIndex ==> t.stages[j] == s.stages[j])
    ensures InRange(s) && s.stages[s.currentStageIndex].status == StageStatus.Completed ==>
      match FirstOpenFrom(s.stages, s.currentStageIndex + 1)
      case None => t.stages == s.stages && t.currentStageIndex == s.currentStageIndex
      case Some(i) =>
        (t.currentStageIndex == i
         && (forall j :: s.currentStageIndex < j < i ==> s.stages[j].status == StageStatus.Completed)
         && (i < |def.stages| ==> t.stages[i].status == ActivationStatus(def.stages[i]))
         && (forall j :: 0 <= j < |s.stages| && j != i ==> t.stages[j] == s.stages[j]))
  {
    ResumeStage(s.(status := Running), def).(updatedAt := now)
  }

  /** `continueWorkflow`'s checks, in order, before the definition is loaded. */
  function ContinueCheck(stored: Option<WorkflowState>): (r: Result<WorkflowState, CrewError>)
    ensures r.Ok? <==> stored.Some? && stored.value.status != Running && !AllCompleted(stored.value.stages)
    ensures stored.None? ==> r == Err(StateUnavailable)
    ensures stored.Some? && stored.value.status == Running ==> r == Err(AlreadyRunning)
    ensures stored.Some? && stored.value.status != Running && AllCompleted(stored.value.stages) ==> r == Err(WorkflowCompleted)
    ensures r.Ok? ==> r.value == stored.value
  {
    if stored.None? then Err(StateUnavailable)
    else if stored.value.status == Running then Err(AlreadyRunning)
    else if AllCompleted(stored.value.stages) then Err(WorkflowCompleted)
    else Ok(stored.value)
  }

  /** `getCurrentStage`: the current stage of a running record, absent otherwise. */
  function GetCurrentStage(stored: Option<WorkflowState>): (r: Result<Option<StageState>, CrewError>)
    ensures stored.None? <==> r == Err(StateUnavailable)
    ensures r.Ok? && r.value.Some? <==> stored.Some? && stored.value.status == Running && InRange(stored.value)
    ensures r.Ok? && r.value.Some? ==> r.value.value == stored.value.stages[stored.value.currentStageIndex]
  {
    if stored.None? then Err(StateUnavailable)
    else if stored.value.status != Running || !InRange(stored.value) then Ok(None)
    else Ok(Some(stored.value.stages[stored.value.currentStageIndex]))
  }

  /** `canAdvance`: running with an active current stage. */
  function CanAdvance(stored: Option<WorkflowState>): (r: Result<bool, CrewError>)
    ensures stored.None? <==> r == Err(StateUnavailable)
    ensures r == Ok(true) <==>
      (GetCurrentStage(stored).Ok? && GetCurrentStage(stored).value.Some?
       && GetCurrentStage(stored).value.value.status == Active)
  {
    if stored.None? then Err(StateUnavailable)
    else if stored.value.status != Running || !InRange(stored.value) then Ok(false)
    else Ok(stored.value.stages[stored.value.currentStageIndex].status == Active)
  }

  // ---------------------------------------------------------------------------
  // The invariant

  /** The largest cycle number a record can reach under `def`. */
  function CycleCap(def: WorkflowDefinition): int {
    if def.maxCycles >= 1 then def.maxCycles else 1
  }

  /**
   * The shape of every record the engine writes for `def`: one stage per
   * definition stage with the same names; stages before the index completed,
   * stages after it pending; the current stage not pending, and active or
   * waiting at its gate while the workflow runs or is paused; a waiting stage
   * is a gated one; the cycle counter between 1 and the cap.
   */
  predicate WF(s: WorkflowState, def: WorkflowDefinition) {
    && |s.stages| == |def.stages| >= 1
    && (forall i :: 0 <= i < |s.stages| ==> s.stages[i].name == def.stages[i].name)
    && InRange(s)
    && 1 <= s.cycleCount <= CycleCap(def)
    && s.status != Idle
    && (forall i :: 0 <= i < s.currentStageIndex ==> s.stages[i].status == StageStatus.Completed)
    && (forall i :: s.currentStageIndex < i < |s.stages| ==> s.stages[i].status == Pending)
    && s.stages[s.currentStageIndex].status != Pending
    && (s.status in {Running, Paused} ==> s.stages[s.currentStageIndex].status in {Active, WaitingGate})
    && (s.stages[s.currentStageIndex].status == WaitingGate ==> def.stages[s.currentStageIndex].humanGate)
  }

  /** The state `start` writes satisfies the invariant. */
  lemma StartEstablishesWF(name: string, goal: string, def: WorkflowDefinition, now: string)
    requires ValidDefinition(def)
    ensures StartState(name, goal, def, now).Ok?
    ensures WF(StartState(name, goal, def, now).value, def)
  {
  }

  /** `advance` keeps the invariant, and under it fails only at a pending gate or the cycle cap. */
  lemma AdvancePreservesWF(s: WorkflowState, def: WorkflowDefinition, now: string)
    requires WF(s, def) && s.status == Running
    ensures var e := AdvanceState(s, def, now);
      && (e.write.Some? ==> WF(e.write.value, def))
      && (e.result.Err? ==> e.result.error in {GatePending, MaxCyclesExceeded})
      && (e.result == Err(GatePending) <==> s.stages[s.currentStageIndex].status == WaitingGate)
      && (e.result == Err(MaxCyclesExceeded) ==> e.write.Some? && e.write.value.status == Error)
  {
    var e := AdvanceState(s, def, now);
    var i := s.currentStageIndex;
    if s.stages[i].status != WaitingGate && i + 1 == |s.stages| {
      var done := s.(stages := s.stages[i := StageState(s.stages[i].name, StageStatus.Completed)]);
      var o := LoopOrClose(done, def);
      assert e.write == Some(o.state.(updatedAt := now));
      if def.loopOnChanges && done.cycleCount < def.maxCycles {
        assert o.result.Ok?;
        assert o.state.cycleCount <= CycleCap(def);
      }
    }
  }

  /** `pause`, `resume` and `stop` keep the invariant. */
  lemma PauseResumeStopPreserveWF(s: WorkflowState, def: WorkflowDefinition, now: string)
    requires WF(s, def)
    ensures Pause(Some(s), now).write.Some? ==> WF(Pause(Some(s), now).write.value, def)
    ensures Resume(Some(s), now).write.Some? ==> WF(Resume(Some(s), now).write.value, def)
    ensures Stop(Some(s), now).write.Some? ==> WF(Stop(Some(s), now).write.value, def)
  {
  }

  /** Approving or rejecting a gate keeps the invariant. */
  lemma GateDecisionsPreserveWF(s: WorkflowState, def: WorkflowDefinition, now: string)
    requires WF(s, def)
    ensures ApproveGate(Some(s), now).write.Some? ==> WF(ApproveGate(Some(s), now).write.value, def)
    ensures RejectGate(Some(s), now).write.Some? ==> WF(RejectGate(Some(s), now).write.value, def)
  {
  }

  /**
   * `continueWorkflow` keeps the invariant: from any record that passed its
   * checks, the written record is running with an active or gated current stage.
   */
  lemma ContinuePreservesWF(s: WorkflowState, def: WorkflowDefinition, now: string)
    requires WF(s, def) && s.status != Running && !AllCompleted(s.stages)
    ensures WF(ContinueState(s, def, now), def)
  {
    var i := s.currentStageIndex;
    if s.stages[i].status == StageStatus.Completed {
      assert FirstOpenFrom(s.stages, i + 1) == Some(i + 1);
    }
  }

  /** Under the invariant, `canAdvance` is true exactly when `advance` is not held by a gate. */
  lemma CanAdvanceMatchesAdvance(s: WorkflowState, def: WorkflowDefinition, now: string)
    requires WF(s, def) && s.status == Running
    ensures CanAdvance(Some(s)) == Ok(true) <==> AdvanceState(s, def, now).result != Err(GatePending)
  {
    AdvancePreservesWF(s, def, now);
  }

  // ---------------------------------------------------------------------------
  // Whole runs

  predicate Ungated(def: WorkflowDefinition) {
    forall i :: 0 <= i < |def.stages| ==> !def.stages[i].humanGate
  }

  /** `advance` applied `k` times, stopping at the first call that writes nothing. */
  function AdvanceTimes(s: WorkflowState, def: WorkflowDefinition, now: string, k: nat): WorkflowState
    decreases k
  {
    if k == 0 then s
    else
      var e := AdvanceState(s, def, now);
      if e.write.None? then s else AdvanceTimes(e.write.value, def, now, k - 1)
  }

  /**
   * In a workflow without gates and without looping, advancing once per
   * remaining stage ends in a completed workflow whose stages are all completed.
   */
  lemma {:induction false} UngatedRunCompletes(s: WorkflowState, def: WorkflowDefinition, now: string)
    requires WF(s, def) && s.status == Running && Ungated(def) && !def.loopOnChanges
    ensures var t := AdvanceTimes(s, def, now, |s.stages| - s.currentStageIndex);
      t.status == WorkflowStatus.Completed && AllCompleted(t.stages)
    decreases |s.stages| - s.currentStageIndex
  {
    var i := s.currentStageIndex;
    if i + 1 < |s.stages| {
      UngatedMiddleAdvance(s, def, now);
      var t := AdvanceState(s, def, now).write.value;
      UngatedRunCompletes(t, def, now);
    } else {
      UngatedLastAdvance(s, def, now);
      var t := AdvanceState(s, def, now).write.value;
      assert AdvanceTimes(t, def, now, 0) == t;
    }
  }

  /** Without gates, advancing from a stage that is not the last moves to the next one. */
  lemma UngatedMiddleAdvance(s: WorkflowState, def: WorkflowDefinition, now: string)
    requires WF(s, def) && s.status == Running && Ungated(def)
    requires s.currentStageIndex + 1 < |s.stages|
    ensures var e := AdvanceState(s, def, now);
      e.write.Some? && WF(e.write.value, def) && e.write.value.status == Running
      && e.write.value.currentStageIndex == s.currentStageIndex + 1 && e.write.value.cycleCount == s.cycleCount
  {
    AdvancePreservesWF(s, def, now);
  }

  /** Without gates and without looping, advancing from the last stage completes every stage and the workflow. */
  lemma UngatedLastAdvance(s: WorkflowState, def: WorkflowDefinition, now: string)
    requires WF(s, def) && s.status == Running && Ungated(def) && !def.loopOnChanges
    requires s.currentStageIndex + 1 == |s.stages|
    ensures var e := AdvanceState(s, def, now);
      e.write.Some? && e.write.value.status == WorkflowStatus.Completed && AllCompleted(e.write.value.stages)
  {
    var e := AdvanceState(s, def, now);
    AdvancePreservesWF(s, def, now);
    var i := s.currentStageIndex;
    assert e.write.Some?;
    var t := e.write.value;
    assert t.status == WorkflowStatus.Completed;
    forall j | 0 <= j < |t.stages|
      ensures t.stages[j].status == StageStatus.Completed
    {
      if j < i {
        assert t.stages[j] == s.stages[j];
      }
    }
  }

  /** `t` is running at the first stage, active, of the cycle after that of `s`, with every later stage pending. */
  predicate NextCycleStart(t: WorkflowState, s: WorkflowState) {
    && t.status == Running && t.currentStageIndex == 0 && t.cycleCount == s.cycleCount + 1
    && |t.stages| == |s.stages| && |t.stages| >= 1 && t.stages[0].status == Active
    && forall j :: 1 <= j < |t.stages| ==> t.stages[j].status == Pending
  }

  /**
   * In a workflow that loops, a full pass through the stages from the start
   * of a cycle below the cap returns to stage 0 in the next cycle.
   */
  lemma {:induction false} UngatedCycleLoopsBack(s: WorkflowState, def: WorkflowDefinition, now: string)
    requires WF(s, def) && s.status == Running && Ungated(def) && def.loopOnChanges
    requires s.cycleCount < def.maxCycles
    ensures NextCycleStart(AdvanceTimes(s, def, now, |s.stages| - s.currentStageIndex), s)
    decreases |s.stages| - s.currentStageIndex
  {
    var i := s.currentStageIndex;
    if i + 1 < |s.stages| {
      UngatedMiddleAdvance(s, def, now);
      var t := AdvanceState(s, def, now).write.value;
      var k := |s.stages| - s.currentStageIndex;
      assert AdvanceTimes(s, def, now, k) == AdvanceTimes(t, def, now, k - 1);
      UngatedCycleLoopsBack(t, def, now);
    } else {
      UngatedLastLoops(s, def, now);
      var t := AdvanceState(s, def, now).write.value;
      assert AdvanceTimes(t, def, now, 0) == t;
    }
  }

  /** Without gates and below the cap, advancing from the last stage of a looping workflow starts the next cycle. */
  lemma UngatedLastLoops(s: WorkflowState, def: WorkflowDefinition, now: string)
    requires WF(s, def) && s.status == Running && Ungated(def) && def.loopOnChanges
    requires s.cycleCount < def.maxCycles && s.currentStageIndex + 1 == |s.stages|
    ensures var e := AdvanceState(s, def, now);
      e.write.Some? && NextCycleStart(e.write.value, s)
  {
    AdvancePreservesWF(s, def, now);
  }
}

/**
 * `WorkflowEngine`: reads the state file, edits the record in place and writes
 * it back. The state file is the field `stored` (`None` when it is missing or
 * unreadable); the definition cache is the field `definition`. Every method is
 * proved to perform exactly the effect the matching function of `Workflow`
 * describes.
 */
module Engine {
  import opened Kernel
  import opened Schema
  import opened Workflow

  class WorkflowEngine {
    /** The workflow directories in search order, each a map from workflow name to its file. */
    const searchPaths: seq<map<string, TemplateFile>>
    /** The contents of `state.json`. */
    var stored: Option<WorkflowState>
    /** The definition last loaded, shared by later calls. */
    var definition: Option<WorkflowDefinition>

    constructor(searchPaths: seq<map<string, TemplateFile>>, stateFile: Option<WorkflowState>)
      ensures this.searchPaths == searchPaths && stored == stateFile && definition.None?
    {
      this.searchPaths := searchPaths;
      stored := stateFile;
      definition := None;
    }

    /** `start`: refuse a running workflow, load the definition, write the fresh record. */
    method Start(workflowName: string, goal: string, now: string) returns (r: Result<Unit, CrewError>)
      modifies this
      ensures old(stored).Some? && old(stored).value.status == Running ==>
        r == Err(AlreadyRunning) && stored == old(stored) && definition == old(definition)
      ensures !(old(stored).Some? && old(stored).value.status == Running) ==>
        var loaded := LoadDefinition(searchPaths, workflowName);
        && (loaded.Err? ==> r == Err(loaded.error) && stored == old(stored) && definition == old(definition))
        && (loaded.Ok? ==>
              (definition == Some(loaded.value)
               && stored == Some(StartState(workflowName, goal, loaded.value, now).value)
               && r == Ok(Unit)))
    {
      if stored.Some? && stored.value.status == Running {
        return Err(AlreadyRunning);
      }
      var loaded := LoadDefinition(searchPaths, workflowName);
      if loaded.Err? {
        return Err(loaded.error);
      }
      definition := Some(loaded.value);
      // A validated definition has a first stage, so the `INVALID_DEFINITION`
      // branch of `start` is never taken here.
      var initial := StartState(workflowName, goal, loaded.value, now);
      stored := Some(initial.value);
      r := Ok(Unit);
    }

    /** The definition for a running record: the cached one, or a lookup that fills the cache. */
    method EnsureDefinitionFor(workflowName: string) returns (r: Result<WorkflowDefinition, CrewError>)
      modifies this
      ensures r == EnsureDefinition(old(definition), searchPaths, workflowName)
      ensures definition == CacheAfter(old(definition), r)
      ensures stored == old(stored)
    {
      if definition.Some? {
        return Ok(definition.value);
      }
      r := LoadDefinition(searchPaths, workflowName);
      if r.Ok? {
        definition := Some(r.value);
      }
    }

    /** `advance`: complete the current stage and move on, or loop or close after the last one. */
    method Advance(now: string) returns (r: Result<Unit, CrewError>)
      modifies this
      ensures EnsureRunning(old(stored)).Err? ==>
        r == Err(EnsureRunning(old(stored)).error) && stored == old(stored) && definition == old(definition)
      ensures EnsureRunning(old(stored)).Ok? ==>
        var s := old(stored).value;
        var loaded := EnsureDefinition(old(definition), searchPaths, s.workflowName);
        && definition == CacheAfter(old(definition), loaded)
        && (loaded.Err? ==> r == Err(loaded.error) && stored == old(stored))
        && (loaded.Ok? ==>
              (r == AdvanceState(s, loaded.value, now).result
               && stored == Apply(old(stored), AdvanceState(s, loaded.value, now))))
    {
      var running := EnsureRunning(stored);
      if running.Err? {
        return Err(running.error);
      }
      var state := running.value;
      var loaded := EnsureDefinitionFor(state.workflowName);
      if loaded.Err? {
        return Err(loaded.error);
      }
      var e := AdvanceRecord(state, loaded.value, now);
      stored := Apply(stored, e);
      r := e.result;
    }

    /** The in-memory part of `advance`: complete the current stage, then move on, loop or close. */
    method AdvanceRecord(s: WorkflowState, def: WorkflowDefinition, now: string) returns (e: Effect)
      ensures e == AdvanceState(s, def, now)
    {
      var state := s;
      var i := state.currentStageIndex;
      if !(0 <= i < |state.stages|) {
        return Effect(None, Err(InvalidDefinition));
      }
      if state.stages[i].status == WaitingGate {
        return Effect(None, Err(GatePending));
      }
      state := state.(stages := state.stages[i := state.stages[i].(status := StageStatus.Completed)]);
      var r: Result<Unit, CrewError>;
      if i + 1 < |state.stages| {
        if i + 1 >= |def.stages| {
          return Effect(None, Err(InvalidDefinition));
        }
        state := state.(currentStageIndex := i + 1);
        state := state.(stages := state.stages[i + 1 := state.stages[i + 1].(status := ActivationStatus(def.stages[i + 1]))]);
        r := Ok(Unit);
      } else {
        state, r := EvaluateLoopOrClose(state, def);
      }
      e := Effect(Some(state.(updatedAt := now)), r);
    }

    /** `evaluateLoopOrClose`: the reset of every stage is a loop over the record's stages. */
    method EvaluateLoopOrClose(s: WorkflowState, def: WorkflowDefinition) returns (t: WorkflowState, r: Result<Unit, CrewError>)
      ensures Step(t, r) == LoopOrClose(s, def)
    {
      t := s;
      if !def.loopOnChanges {
        t := t.(status := WorkflowStatus.Completed);
        return t, Ok(Unit);
      }
      if t.cycleCount >= def.maxCycles {
        t := t.(status := Error);
        return t, Err(MaxCyclesExceeded);
      }
      t := t.(cycleCount := t.cycleCount + 1, currentStageIndex := 0);
      var k := 0;
      while k < |t.stages|
        invariant 0 <= k <= |t.stages| == |s.stages|
        invariant t.stages[..k] == AllPending(s.stages)[..k]
        invariant t.stages[k..] == s.stages[k..]
        invariant t == s.(cycleCount := s.cycleCount + 1, currentStageIndex := 0, stages := t.stages)
      {
        t := t.(stages := t.stages[k := t.stages[k].(status := Pending)]);
        k := k + 1;
      }
      assert t.stages == AllPending(s.stages);
      if |t.stages| == 0 || |def.stages| == 0 {
        return t, Err(InvalidDefinition);
      }
      t := t.(stages := t.stages[0 := t.stages[0].(status := ActivationStatus(def.stages[0]))]);
      r := Ok(Unit);
    }

    /** `pause`. */
    method Pause(now: string) returns (r: Result<Unit, CrewError>)
      modifies this
      ensures r == Workflow.Pause(old(stored), now).result
      ensures stored == Apply(old(stored), Workflow.Pause(old(stored), now))
      ensures definition == old(definition)
    {
      var running := EnsureRunning(stored);
      if running.Err? {
        return Err(running.error);
      }
      stored := Some(running.value.(status := Paused, updatedAt := now));
      r := Ok(Unit);
    }

    /** `resume`. */
    method Resume(now: string) returns (r: Result<Unit, CrewError>)
      modifies this
      ensures r == Workflow.Resume(old(stored), now).result
      ensures stored == Apply(old(stored), Workflow.Resume(old(stored), now))
      ensures definition == old(definition)
    {
      if stored.None? {
        return Err(StateUnavailable);
      }
      if stored.value.status != Paused {
        return Err(NotRunning);
      }
      stored := Some(stored.value.(status := Running, updatedAt := now));
      r := Ok(Unit);
    }

    /** `stop`. */
    method Stop(now: string) returns (r: Result<Unit, CrewError>)
      modifies this
      ensures r == Workflow.Stop(old(stored), now).result
      ensures stored == Apply(old(stored), Workflow.Stop(old(stored), now))
      ensures definition == old(definition)
    {
      if stored.None? {
        return Err(StateUnavailable);
      }
      if stored.value.status != Running && stored.value.status != Paused {
        return Err(NotRunning);
      }
      stored := Some(stored.value.(status := WorkflowStatus.Completed, updatedAt := now));
      r := Ok(Unit);
    }

    /** `approveGate`. */
    method ApproveGate(now: string) returns (r: Result<Unit, CrewError>)
      modifies this
      ensures r == Workflow.ApproveGate(old(stored), now).result
      ensures stored == Apply(old(stored), Workflow.ApproveGate(old(stored), now))
      ensures definition == old(definition)
    {
      var running := EnsureRunning(stored);
      if running.Err? {
        return Err(running.error);
      }
      var state := running.value;
      var i := state.currentStageIndex;
      if !(0 <= i < |state.stages|) || state.stages[i].status != WaitingGate {
        return Err(GatePending);
      }
      state := state.(stages := state.stages[i := state.stages[i].(status := Active)]);
      stored := Some(state.(updatedAt := now));
      r := Ok(Unit);
    }

    /** `rejectGate`. */
    method RejectGate(now: string) returns (r: Result<Unit, CrewError>)
      modifies this
      ensures r == Workflow.RejectGate(old(stored), now).result
      ensures stored == Apply(old(stored), Workflow.RejectGate(old(stored), now))
      ensures definition == old(definition)
    {
      var running := EnsureRunning(stored);
      if running.Err? {
        return Err(running.error);
      }
      var state := running.value;
      var i := state.currentStageIndex;
      if !(0 <= i < |state.stages|) || state.stages[i].status != WaitingGate {
        return Err(GatePending);
      }
      stored := Some(state.(status := WorkflowStatus.Completed, updatedAt := now));
      r := Ok(Unit);
    }

    /** `continueWorkflow`: the checks, a fresh lookup into the cache, then the resume edit. */
    method ContinueWorkflow(now: string) returns (r: Result<Unit, CrewError>)
      modifies this
      ensures ContinueCheck(old(stored)).Err? ==>
        r == Err(ContinueCheck(old(stored)).error) && stored == old(stored) && definition == old(definition)
      ensures ContinueCheck(old(stored)).Ok? ==>
        var s := old(stored).value;
        var loaded := LoadDefinition(searchPaths, s.workflowName);
        && (loaded.Err? ==> r == Err(loaded.error) && stored == old(stored) && definition == old(definition))
        && (loaded.Ok? ==>
              (r == Ok(Unit) && definition == Some(loaded.value)
               && stored == Some(ContinueState(s, loaded.value, now))))
    {
      var checked := ContinueCheck(stored);
      if checked.Err? {
        return Err(checked.error);
      }
      var state := checked.value;
      var loaded := LoadDefinition(searchPaths, state.workflowName);
      if loaded.Err? {
        return Err(loaded.error);
      }
      definition := Some(loaded.value);
      state := state.(status := Running);
      state := ActivateResumeStage(state, loaded.value);
      stored := Some(state.(updatedAt := now));
      r := Ok(Unit);
    }

    /** `activateResumeStage`. */
    method ActivateResumeStage(s: WorkflowState, def: WorkflowDefinition) returns (t: WorkflowState)
      ensures t == ResumeStage(s, def)
    {
      t := s;
      var i := s.currentStageIndex;
      if !(0 <= i < |s.stages|) {
        return;
      }
      if s.stages[i].status == StageStatus.Completed {
        t := ActivateNextPending(s, def);
      } else if s.stages[i].status == Pending {
        t := ActivateStageAt(s, def, i);
      }
    }

    /** `activateNextPending`: an indexed scan that stops at the first stage not completed. */
    method ActivateNextPending(s: WorkflowState, def: WorkflowDefinition) returns (t: WorkflowState)
      requires InRange(s)
      ensures t == NextPending(s, def)
    {
      t := s;
      var i := s.currentStageIndex + 1;
      while i < |s.stages|
        invariant s.currentStageIndex + 1 <= i <= |s.stages|
        invariant FirstOpenFrom(s.stages, s.currentStageIndex + 1) == FirstOpenFrom(s.stages, i)
        invariant t == s
      {
        if s.stages[i].status != StageStatus.Completed {
          t := t.(currentStageIndex := i);
          t := ActivateStageAt(t, def, i);
          return;
        }
        i := i + 1;
      }
    }

    /** `getStageDefinitions`: the cached stages, or `NOT_RUNNING` before any lookup. */
    function GetStageDefinitions(): (r: Result<seq<StageDefinition>, CrewError>)
      reads this
      ensures r.Err? <==> definition.None?
      ensures r.Err? ==> r.error == NotRunning
      ensures r.Ok? ==> r.value == definition.value.stages
    {
      if definition.None? then Err(NotRunning) else Ok(definition.value.stages)
    }
  }
}

# agent-crew, modelled in Dafny

agent-crew (`crew`) runs a team of AI coding agents, each a CLI program in its
own tmux pane, through a workflow of stages defined in YAML. A workflow engine
keeps the persisted record of which stage is current. A poll loop watches the
agents: it prompts the agent of each newly active stage, advances the workflow
when that agent leaves a signal file, nudges it when it idles and respawns it
when its process dies. Tasks live as Markdown files with YAML front matter
under `.crew/tasks/`, and user requests live in `.crew/REQUEST.md`.

This project models that core and proves properties of it. It has one
Dafny module per file:

| file | module | what it holds |
|---|---|---|
| `kernel.dfy` | `Kernel` | the `Result` type and the error codes |
| `text.dfy` | `Text` | the string operations the source takes from JavaScript (`trim`, `split`, `padStart`, `String(n)`, `includes`) |
| `schema.dfy` | `Schema` | stage and workflow definitions, their defaults and the non-empty-stages rule |
| `workflow.dfy` | `Workflow` | the `WorkflowState` record, the definition lookup, and one function per engine operation saying what it writes and returns; the invariant they keep |
| `engine.dfy` | `Engine` | the class `WorkflowEngine`, which edits the record in place and is proved to agree with those functions |
| `request.dfy` | `Request` | `REQUEST.md` parsing (a loop method proved against a function), the active goal and the heading of a new entry |
| `prompt.dfy` | `Prompt` | both versions of `buildPrompt`, and `buildAgentList` |
| `poll.dfy` | `Poll` | the poll-loop policy: the `PollContext` class, its four steps, the gate question and the loop |
| `adapters.dfy` | `Adapters` | `shellEscape`, `detectAgentStatus`, and the Claude Code and Codex launch commands |
| `runner.dfy` | `Runner` | the class `AgentRunner`: the agent map, the pane counter, the session, health and respawn bookkeeping |
| `transitions.dfy` | `Transitions` | the task status table |
| `taskstore.dfy` | `TaskStore` | task ids, file paths, `create`, `update` and `matchesFilter`, over an in-memory directory; the class `TaskStore` |
| `tasks_listing.dfy` | `TaskListing` | `crew tasks`: counts, summary, sort order and the waiting note |
| `gitignore.dfy` | `Gitignore` | the `.gitignore` merge of `crew init` |

How each part is modelled:

- **State file.** The persisted `state.json` is the engine's field `stored`
  (`None` when it cannot be read). Each engine operation first exists as a
  function that returns an `Effect`: the record it writes, if any, and its
  result. The class method is then proved to leave exactly
  `Apply(old(stored), effect)` in the field.
- **Agent runner.** tmux and the process probe are oracles. Their answers
  (the captured pane text, the pane pid, the child pids, whether a pid is
  alive, whether a send succeeded) are parameters. Each command the runner
  gives tmux is appended to a field `sent`, so contracts can say which command
  was sent to which pane.
- **Poll loop.** The four steps of the loop are functions on the
  `PollContext` values, in `Poll`. Each also exists as a method of the class
  `Poll.PollContext` that updates the fields in place. Observations (signal
  present, agent status, health, respawn count, gate answer, clock) arrive
  one `Tick` per pass. What the loop asks the runner or the engine to do is
  returned as a list of `Action`s.
- **Directories and files.** The task directory is a map from path
  segments to file contents. `REQUEST.md` and `.gitignore` are strings.

The poll-loop policy is written twice in the repository: in
`src/cli/commands/_shared.ts` and, with extra logging, in
`src/cli/commands/start.ts`. The two copies take the same decisions, so the
policy is modelled once, and the table cites both files. `buildPrompt` differs
between the two files:

- the `start.ts` copy (`Prompt.LegacyBuildPrompt`) has no role and no
  workflow YAML;
- the `_shared.ts` copy (`Prompt.BuildPrompt`) adds both, and a blank line
  before the tasks directory.

Behaviours the model reproduces as the code has them:

- **`todo` cannot go straight to `in_progress`.** The transition table of
  `src/store/transitions.ts:4` only allows `todo` → `ready`. Some tests of the
  repository expect `todo` → `in_progress` to succeed. The model follows the
  table: `TaskStore.TodoCannotStart` proves that such an update fails with
  `INVALID_TRANSITION`.
- **The `ready` status.** The status type of `src/kernel/types.ts:1-8` does
  not name `ready`, but the transition table and the task listing use it. The
  model's status type includes it.
- **A bad agent name.** A name that fails validation is reported as
  `AGENT_NOT_FOUND` (`src/runner/AgentRunner.ts:94`).
- **Every agent uses Codex.** `buildAgentList` reads `stage.provider`. The
  stage schema has no such field, so the CLI type is always missing, and the
  runner picks the Codex adapter for every agent (`Prompt.EveryAgentGetsCodex`).
- **A one-stage gated looping workflow is not re-prompted.** Take a workflow
  that has a single stage, gated, with looping on. After that stage loops back
  and its gate is approved, the index has not gone down. So `promptIfNeeded`
  never prompts the stage again (`Poll.OneStageGatedLoopIsNotReprompted`). A
  loop back over two or more stages does reset the tracking, and then the
  stage is prompted again (`Poll.LoopBackIsReprompted`).

## Model

| member | source | states |
|---|---|---|
| Kernel.OkCarriesValue | src/kernel/result.ts:3 | `ok(v)` is a success carrying `v` unchanged; `isOk` holds of it and `isErr` does not |
| Kernel.ErrCarriesError | src/kernel/result.ts:5 | `err(e)` is a failure carrying `e` unchanged; `isErr` holds of it and `isOk` does not |
| Kernel.IsOkIffNotIsErr | src/kernel/result.ts:7-9 | for every result, `isOk` is the negation of `isErr` |
| Schema.ParseStage | src/workflow/schema.ts:3-10 | name, role, model and `on_complete` are carried over; `human_gate` and `context_reset` are set only when given as true, so they default to false; there is no provider field |
| Schema.ParseDefinition | src/workflow/schema.ts:12-18 | a definition is accepted exactly when it has at least one stage, and is otherwise refused with `INVALID_DEFINITION`; `loop_on_changes` defaults to false and `max_cycles` to 10; the description is optional; every stage is parsed in order |
| Schema.DefaultsWhenAbsent | src/workflow/schema.ts:7-16 | a definition that gives none of the optional fields has no gates, no context resets, no looping, at most 10 cycles and no description |
| Workflow.ActivationStatus | src/workflow/WorkflowEngine.ts:187-193 | a stage that becomes current waits at its gate exactly when it is gated, and is active otherwise |
| Workflow.SearchDefinition | src/workflow/WorkflowEngine.ts:318-334 | the first search directory with a readable `<name>.yaml` decides the outcome, even when its content fails validation; `WORKFLOW_NOT_FOUND` is returned exactly when no directory has one |
| Workflow.LoadDefinition | src/workflow/WorkflowEngine.ts:310-335 | a workflow name outside `[a-zA-Z0-9_-]+` is refused with `INVALID_DEFINITION` before any lookup; a valid name gives exactly the result of the search over the definition directories; a loaded definition is valid |
| Workflow.EnsureDefinition | src/workflow/WorkflowEngine.ts:301-308 | a cached definition is used as it is; otherwise the definition is loaded |
| Workflow.StartState | src/workflow/WorkflowEngine.ts:43-66 | the new record runs at index 0 in cycle 1 with the given name and goal, and has one stage per definition stage with the same names; stage 0 is waiting at its gate or active, and every other stage is pending |
| Workflow.AllPending | src/workflow/WorkflowEngine.ts:272-274 | keeps every stage's name and makes its status pending |
| Workflow.LoopOrClose | src/workflow/WorkflowEngine.ts:255-285 | without looping the workflow completes; at the cycle cap the status becomes `error` with `MAX_CYCLES_EXCEEDED`; otherwise the cycle count goes up by one, the index goes back to 0, stage 0 is reactivated per its gate and the other stages are pending |
| Workflow.AdvanceState | src/workflow/WorkflowEngine.ts:71-114 | nothing is written on a pending gate (`GATE_PENDING`) or an index out of range; from a stage that is not the last, that stage completes, the index moves on by one, and the next stage is activated per its gate; the other stages, the cycle count, the goal and the name are kept; a cycle-cap failure is still written |
| Workflow.AdvanceFromLastStage | src/workflow/WorkflowEngine.ts:101-110 | from the last stage, after it is marked completed, the workflow closes, fails at the cycle cap with `MAX_CYCLES_EXCEEDED` (and that record is written), or starts the next cycle at stage 0 with the other stages pending |
| Workflow.EnsureRunning | src/workflow/WorkflowEngine.ts:292-299 | succeeds exactly on a readable running record, and fails with `NOT_RUNNING` on any other status |
| Workflow.Pause | src/workflow/WorkflowEngine.ts:116-123 | succeeds exactly from `running` and sets `paused`; stages, index and cycle count are untouched; on failure nothing is written |
| Workflow.Resume | src/workflow/WorkflowEngine.ts:125-135 | succeeds exactly from `paused` and sets `running`, leaving stages, index and cycle count as they were; any other status gives `NOT_RUNNING` |
| Workflow.Stop | src/workflow/WorkflowEngine.ts:195-205 | succeeds exactly from `running` or `paused` and sets `completed`, leaving stages, index and cycle count as they were; otherwise `NOT_RUNNING` |
| Workflow.ApproveGate | src/workflow/WorkflowEngine.ts:229-240 | succeeds exactly when a running record's current stage waits at its gate; that stage becomes active and nothing else changes; otherwise `GATE_PENDING` (or the running check's error) |
| Workflow.RejectGate | src/workflow/WorkflowEngine.ts:242-253 | succeeds under the same condition as approval; the workflow becomes `completed` and the stage statuses are left as they were |
| Workflow.ActivateStageAt | src/workflow/WorkflowEngine.ts:187-193 | activates stage `i` per its gate and changes no other stage; an index with no stage or no definition changes nothing |
| Workflow.FirstOpenFrom | src/workflow/WorkflowEngine.ts:176-185 | finds the first stage from the given index on that is not completed, and every stage it skips is completed; it finds nothing exactly when all of them are completed |
| Workflow.ContinueState | src/workflow/WorkflowEngine.ts:137-193 | the record runs again: an active or waiting current stage is kept; a pending one is activated in place; past a completed one, the first later stage not completed becomes current and is activated; in both activating cases every other stage is left as it was |
| Workflow.ContinueCheck | src/workflow/WorkflowEngine.ts:137-150 | a running record is refused with `ALREADY_RUNNING`, and one whose stages are all completed with `WORKFLOW_COMPLETED` |
| Workflow.GetCurrentStage | src/workflow/WorkflowEngine.ts:211-217 | there is a current stage exactly when the record is running with its index in range, and it is the stage at that index |
| Workflow.CanAdvance | src/workflow/WorkflowEngine.ts:219-227 | true exactly when the workflow is running and its current stage is active |
| Workflow.StartEstablishesWF | src/workflow/WorkflowEngine.ts:43-66 | for a valid definition, `start` succeeds and its record satisfies the invariant: earlier stages completed, the current one active or waiting, later ones pending, and the cycle count within its cap |
| Workflow.AdvancePreservesWF | src/workflow/WorkflowEngine.ts:71-114 | `advance` keeps the invariant; on a running record it fails only with `GATE_PENDING`, exactly when the current stage waits at its gate, or with `MAX_CYCLES_EXCEEDED`, and then the written record is in `error` |
| Workflow.PauseResumeStopPreserveWF | src/workflow/WorkflowEngine.ts:116-135 | whatever `pause`, `resume` or `stop` writes satisfies the invariant |
| Workflow.GateDecisionsPreserveWF | src/workflow/WorkflowEngine.ts:229-253 | whatever approving or rejecting a gate writes satisfies the invariant |
| Workflow.ContinuePreservesWF | src/workflow/WorkflowEngine.ts:137-193 | the record `continueWorkflow` writes satisfies the invariant |
| Workflow.CanAdvanceMatchesAdvance | src/workflow/WorkflowEngine.ts:219-227 | on a running record, `canAdvance` is true exactly when `advance` is not refused for a pending gate |
| Workflow.UngatedRunCompletes | src/workflow/WorkflowEngine.ts:86-110 | a non-looping workflow without gates completes, with every stage completed, after one `advance` per remaining stage |
| Workflow.UngatedMiddleAdvance | src/workflow/WorkflowEngine.ts:86-100 | without gates, `advance` from a stage that is not the last writes a running record at the next index in the same cycle, and the invariant holds |
| Workflow.UngatedLastAdvance | src/workflow/WorkflowEngine.ts:101-110 | without gates or looping, `advance` from the last stage completes the workflow with all stages completed |
| Workflow.UngatedCycleLoopsBack | src/workflow/WorkflowEngine.ts:255-285 | a looping workflow without gates, below its cap, starts the next cycle at stage 0 after one `advance` per remaining stage: stage 0 active, the rest pending |
| Workflow.UngatedLastLoops | src/workflow/WorkflowEngine.ts:270-282 | below the cap, `advance` from the last stage of a looping workflow without gates starts the next cycle |
| Engine.WorkflowEngine.constructor | src/workflow/WorkflowEngine.ts:17-27 | an engine over the given search paths and state file, with no cached definition |
| Engine.WorkflowEngine.Start | src/workflow/WorkflowEngine.ts:29-69 | refuses with `ALREADY_RUNNING` and writes nothing when the stored record is running; otherwise loads and caches the definition and writes the start record |
| Engine.WorkflowEngine.EnsureDefinitionFor | src/workflow/WorkflowEngine.ts:301-308 | returns the cached definition, or loads it and caches it on success; the state file is untouched |
| Engine.WorkflowEngine.Advance | src/workflow/WorkflowEngine.ts:71-114 | fails without writing when the record is not running or the definition cannot be had; otherwise leaves in the state file exactly what `Workflow.AdvanceState` writes, and returns its result |
| Engine.WorkflowEngine.AdvanceRecord | src/workflow/WorkflowEngine.ts:86-110 | the in-place edits of `advance` produce `Workflow.AdvanceState` |
| Engine.WorkflowEngine.EvaluateLoopOrClose | src/workflow/WorkflowEngine.ts:255-285 | the in-place loop over the stages produces `Workflow.LoopOrClose` |
| Engine.WorkflowEngine.Pause | src/workflow/WorkflowEngine.ts:116-123 | performs `Workflow.Pause` on the state file; the cache is untouched |
| Engine.WorkflowEngine.Resume | src/workflow/WorkflowEngine.ts:125-135 | performs `Workflow.Resume` on the state file |
| Engine.WorkflowEngine.Stop | src/workflow/WorkflowEngine.ts:195-205 | performs `Workflow.Stop` on the state file |
| Engine.WorkflowEngine.ApproveGate | src/workflow/WorkflowEngine.ts:229-240 | performs `Workflow.ApproveGate` on the state file |
| Engine.WorkflowEngine.RejectGate | src/workflow/WorkflowEngine.ts:242-253 | performs `Workflow.RejectGate` on the state file |
| Engine.WorkflowEngine.ContinueWorkflow | src/workflow/WorkflowEngine.ts:137-160 | refuses as `Workflow.ContinueCheck` says, writing nothing; otherwise reloads the definition and writes `Workflow.ContinueState` |
| Engine.WorkflowEngine.ActivateResumeStage | src/workflow/WorkflowEngine.ts:163-174 | the in-place branch on the current stage's status produces the resumed stage list |
| Engine.WorkflowEngine.ActivateNextPending | src/workflow/WorkflowEngine.ts:176-185 | the indexed loop with `break` moves to and activates the first later stage that is not completed |
| Engine.WorkflowEngine.GetStageDefinitions | src/workflow/WorkflowEngine.ts:287-290 | the cached definition's stages; `NOT_RUNNING` exactly when no definition is cached |
| Request.MatchHeading | src/workflow/request.ts:8-9 | a matched heading starts with `## `, carries a timestamp of the form `YYYY-MM-DD HH:MM`, and a non-empty title capture on one line |
| Request.Parse | src/workflow/request.ts:12-41 | `parseRequest` as a function of the content; no contract of its own; its promises are in ParseRequest, ScanFollowsHeadings, ParseEntries, ParseEntriesAtHeadingLines, HeadsAreHeadings, NoHeadingsNoEntries and ParseTrailingEmptyLine |
| Request.ParseRequest | src/workflow/request.ts:12-41 | the two loops of `parseRequest` produce `Parse(content)` |
| Request.ScanEach | src/workflow/request.ts:17-33 | the line loop with its mutable current entry yields the scan of all lines |
| Request.ScanOne | src/workflow/request.ts:18-31 | one line either opens a new entry (pushing the current one) or is appended with its newline to the current body |
| Request.TrimEach | src/workflow/request.ts:36-38 | the in-place trimming loop trims every collected body |
| Request.ScanFollowsHeadings | src/workflow/request.ts:17-33 | the collected entries are, in file order, exactly the headings of the file; lines before the first heading are dropped |
| Request.ParseEntries | src/workflow/request.ts:12-41 | one entry per heading line, in order, with that heading's timestamp, trimmed title and done mark, and a trimmed body |
| Request.HeadingLinesExact | src/workflow/request.ts:17-19 | `HeadingLines` lists, in increasing order, exactly the indices of the lines that match the heading pattern |
| Request.OpeningIndicesOfPrefix | src/workflow/request.ts:17-19 | over the first `m` lines, the opening indices are below `m` and are exactly the lines that open an entry |
| Request.CollectedAtHeadingLines | src/workflow/request.ts:17-33 | after the line loop, collected entry `i` is the entry opened by the `i`-th heading line, and its body is every line after that heading up to the next heading (or the end of the file), each followed by a newline |
| Request.ParseEntriesAtHeadingLines | src/workflow/request.ts:12-41 | entry `i` of `parseRequest` is the heading of the `i`-th heading line, with as body the trimmed text of the lines from just after that heading up to the next heading or the end of the file |
| Request.ScanStep | src/workflow/request.ts:18-31 | reading one line keeps that correspondence, the line's index joining the heading lines when it is a heading |
| Request.HeadsAreHeadings | src/workflow/request.ts:17-27 | every entry comes from a line that matches the heading pattern |
| Request.NoHeadingsNoEntries | src/workflow/request.ts:12-41 | empty content and a file holding only the `# Request` header parse to no entries |
| Request.ParseTrailingEmptyLine | src/workflow/request.ts:29-38 | a trailing empty line does not change the parsed entries, because bodies are trimmed |
| Request.ActiveEntries | src/workflow/request.ts:44 | the filter keeps no more entries than it is given |
| Request.ActiveEntriesMembers | src/workflow/request.ts:44 | the entries kept are exactly those not marked done |
| Request.ActiveEntriesInOrder | src/workflow/request.ts:44 | the filter keeps file order: the kept entries of `a + b` are those of `a` followed by those of `b` |
| Request.ActiveEntryOfOne | src/workflow/request.ts:44 | a single entry is kept exactly when it is not done |
| Request.RenderEntry | src/workflow/request.ts:48-51 | an entry with a non-empty body renders as `[ts] title`, a newline and the body; one with an empty body renders as `[ts] title` alone |
| Request.GetActiveGoal | src/workflow/request.ts:43-53 | `getActiveGoal`; no contract of its own; its promises are in ActiveGoalContents, GoalOfOne, GoalOfConcat and ActiveNoneIffAllDone |
| Request.ActiveGoalContents | src/workflow/request.ts:43-53 | the active goal is empty exactly when every entry is done, and it contains the rendering of every entry not done |
| Request.GoalOfOne | src/workflow/request.ts:43-53 | the goal of one entry is its rendering when it is not done, and empty when it is |
| Request.GoalOfConcat | src/workflow/request.ts:43-53 | the goal of `a + b` is the goal of `a`, a blank line and the goal of `b` when each part has an entry not done, and the goal of the other part when one part is all done |
| Request.ActiveNoneIffAllDone | src/workflow/request.ts:44-45 | nothing is kept exactly when every entry is done |
| Request.FormatNewEntry | src/workflow/request.ts:55-66 | the new entry is its heading, followed by a blank line and the body exactly when the body is non-empty |
| Request.TimestampShape | src/workflow/request.ts:56-62 | for a real local time, the timestamp has the `YYYY-MM-DD HH:MM` shape, with the month counted from 1 and each field zero-padded to two digits |
| Request.HeadingRoundTrip | src/workflow/request.ts:64 | the heading written for a one-line title matches the heading pattern, carries the timestamp back and the trimmed title, and is not marked done |
| Request.FormatParseRoundTrip | src/workflow/request.ts:12-66 | parsing a new entry whose body has no heading-shaped line yields one entry with the timestamp, the trimmed title, the trimmed body and done false |
| Request.AppendEntry | src/cli/commands/_shared.ts:130-149 | the content `writeRequestEntry` writes; no contract of its own; its promises are in NewFileRoundTrip and ParseNewFile |
| Request.NewFileRoundTrip | src/cli/commands/_shared.ts:130-149 | the `REQUEST.md` written for a first request parses back to exactly that request |
| Request.ParseNewFile | src/cli/commands/_shared.ts:143-145 | the `# Request` header and the trailing newline of a new file change nothing that is parsed |
| Prompt.BuildPrompt | src/cli/commands/_shared.ts:151-172 | `buildPrompt` of `_shared.ts`; no contract of its own; its promises are in PromptFrame, ContextOnlyAddsItsSection, SharedContextIncluded, PromptsCarryGoal, PromptDescribesWorkflow and NewerPromptAddsBlankLine |
| Prompt.LegacyBuildPrompt | src/cli/commands/start.ts:94-113 | `buildPrompt` of `start.ts`; no contract of its own; its promises are in PromptFrame, LegacyContextOnlyAddsItsSection, SharedContextIncluded, PromptsCarryGoal and NewerPromptAddsBlankLine |
| Prompt.ContextSection | src/cli/commands/_shared.ts:159-161 | the shared-context section is empty exactly when the context is, and otherwise starts with `## Shared Context` and holds the context |
| Prompt.PromptFrame | src/cli/commands/_shared.ts:151-172 | both prompts start with the role template and end with the tasks directory and the closing instruction |
| Prompt.ContextOnlyAddsItsSection | src/cli/commands/_shared.ts:151-172 | a context inserts its section right after the role template and changes nothing else in the prompt |
| Prompt.LegacyContextOnlyAddsItsSection | src/cli/commands/start.ts:94-113 | the same holds for the older prompt of `start.ts` |
| Prompt.SharedContextIncluded | src/cli/commands/start.ts:100-112 | with a non-empty context, both prompts contain the `## Shared Context` section and the context |
| Prompt.PromptsCarryGoal | src/cli/commands/_shared.ts:151-172 | both prompts contain the goal |
| Prompt.PromptDescribesWorkflow | src/cli/commands/_shared.ts:163-169 | the newer prompt embeds the workflow YAML in a fence when there is one, and otherwise names the workflow |
| Prompt.NewerPromptAddsBlankLine | src/cli/commands/_shared.ts:151-172 | without YAML, the newer prompt is the older one with one more newline before the tasks directory |
| Prompt.BuildAgentList | src/cli/commands/_shared.ts:72-79 | one agent per stage, in order, named after and playing the stage's role, with the stage's model |
| Prompt.EveryAgentGetsCodex | src/cli/commands/_shared.ts:76 | because stages carry no provider, the runner chooses the Codex adapter for every listed agent |
| Prompt.AgentNamesDistinctIffRolesDistinct | src/cli/commands/_shared.ts:72-79 | the agent names are pairwise distinct exactly when the stage roles are |
| Poll.CurrentDef | src/cli/commands/_shared.ts:363 | the current stage's definition exists exactly when the index is within the stage list |
| Poll.PromptIfNeededStep | src/cli/commands/_shared.ts:358-379 | prompts exactly when the workflow runs, the current stage is active and its index is above the tracked one; it then tracks that index; otherwise nothing changes |
| Poll.TryAdvanceStep | src/cli/commands/_shared.ts:296-355 | does nothing without an active current stage and its signal; when it acts, it removes the signal before asking the engine to advance; a failed advance, or an unreadable record, breaks the loop; a lower index after advancing resets the tracking to -1; a newly active stage is prompted and tracked |
| Poll.NudgeStep | src/cli/commands/_shared.ts:381-412 | an active agent resets the nudge count and the idle clock, and is sent nothing; a nudge is sent exactly to an idle agent whose interval has passed and whose count is below the cap; sending it counts it and restarts the clock |
| Poll.RecoverStep | src/cli/commands/_shared.ts:414-460 | acts only on a dead agent of the running current stage whose respawn count is below the cap; a failed respawn does nothing else; a successful one waits for the agent, records its pids, saves the registry, prompts it again and resets the nudge state |
| Poll.GateStep | src/cli/commands/_shared.ts:174-192 | without a stage waiting at its gate the loop goes on and nothing happens; an answer of `y` or `Y` approves the gate, which leaves the stage active, and goes on; any other answer rejects, completing the workflow, and stops |
| Poll.AdvanceStored | src/workflow/WorkflowEngine.ts:71-114 | the engine's `advance` on a stored record and a cached definition |
| Poll.SendFirstPrompt | src/cli/commands/_shared.ts:560-586 | returns the current index and prompts its agent exactly when the current stage is active, and otherwise returns -1 and prompts no one |
| Poll.PollTick | src/cli/commands/_shared.ts:491-518 | the pass stops on abort, an unreadable record, a completed or failed workflow, a rejected gate or a failed advance, and otherwise runs gate, prompt, advance, recovery and nudge in that order |
| Poll.PollRun | src/cli/commands/_shared.ts:491-518 | the loop stops at the first pass that gives a reason to stop |
| Poll.PromptedIndices | src/cli/commands/_shared.ts:358-379 | successive `promptIfNeeded` calls prompt strictly increasing indices, all above the tracked one, so the same stage is never prompted twice unless something lowers the tracking |
| Poll.FirstPromptNotRepeated | src/cli/commands/start.ts:475-501 | the stage the first prompt went to is not prompted again by the next `promptIfNeeded` |
| Poll.ApprovedStageIsPrompted | src/cli/commands/_shared.ts:491-497 | a stage approved at its gate is prompted by the `promptIfNeeded` that follows, when its index is new |
| Poll.OneStageGatedLoopIsNotReprompted | src/cli/commands/_shared.ts:330-365 | in a one-stage gated looping workflow, the loop back keeps the index at 0, so the tracking is not reset, and after approval the stage is not prompted again |
| Poll.LoopBackIsReprompted | src/cli/commands/_shared.ts:330-353 | a loop back from a later stage resets the tracking to -1, and stage 0 is prompted once its gate is approved |
| Poll.PassKeepsNudgeCap | src/cli/commands/_shared.ts:400-411 | a pass never takes the nudge count above the cap |
| Poll.RunKeepsNudgeCap | src/cli/commands/_shared.ts:491-518 | over any run of passes, the nudge count stays within the cap |
| Poll.RunKeepsWF | src/cli/commands/_shared.ts:491-518 | over any run of passes with no workflow replaced from outside, the stored record stays present and well formed |
| Poll.NoNudgeAtCap | src/cli/commands/_shared.ts:403 | once the count reaches the cap, an idle agent is sent no more nudges |
| Poll.LongIdleRunNudgesExactly | src/cli/commands/_shared.ts:400-411 | over a long idle run with the interval passing each time, the agent receives exactly as many nudges as the cap leaves, all of them the nudge message |
| Poll.RespawnsBounded | src/cli/commands/_shared.ts:422-459 | over any run of recoveries, automatic respawns stay within what the cap leaves, and each one adds exactly one to the agent's respawn count |
| Poll.PassKeepsWF | src/cli/commands/_shared.ts:491-518 | when no other process rewrites `state.json`, a pass keeps the record readable and keeps the workflow invariant |
| Poll.PollContext.constructor | src/cli/commands/_shared.ts:280-293 | a context over the engine and stages with the given caps, the given tracked index, the start clock and no nudges |
| Poll.PollContext.PromptIfNeeded | src/cli/commands/start.ts:272-291 | updates the context in place exactly as `Poll.PromptIfNeededStep` says |
| Poll.PollContext.TryAdvanceStage | src/cli/commands/start.ts:215-269 | advances the engine and updates the context in place exactly as `Poll.TryAdvanceStep` says |
| Poll.PollContext.MaybeNudgeAgent | src/cli/commands/start.ts:296-327 | updates the context in place exactly as `Poll.NudgeStep` says |
| Poll.PollContext.MaybeRecoverAgent | src/cli/commands/start.ts:331-377 | updates the context in place exactly as `Poll.RecoverStep` says |
| Poll.HandleGate | src/cli/commands/start.ts:115-133 | asks the engine to approve or reject exactly as `Poll.GateStep` says |
| Poll.PollPass | src/cli/commands/start.ts:406-433 | one pass of the `while` loop performs `Poll.PollTick` on the context and the engine |
| Poll.PollLoop | src/cli/commands/start.ts:379-434 | the `while` loop over the observations performs `Poll.PollRun` |
| Adapters.ShellEscape | src/runner/adapters/types.ts:21-23 | `shellEscape`; no contract of its own; its promises are in ShellEscapeRoundTrip and ShellEscapeLexes |
| Adapters.ShellEscapeRoundTrip | src/runner/adapters/types.ts:17-23 | a shell reads `shellEscape(s)` back as the single word `s`, whatever `s` contains |
| Adapters.ShellEscapeLexes | src/runner/adapters/types.ts:21-23 | reading past an escaped string yields its original text and then whatever follows |
| Adapters.ScanPromptIff | src/runner/adapters/types.ts:34 | the prompt check holds exactly when some line ends in `$`, `%`, `#` or `>` followed only by whitespace |
| Adapters.DetectAgentStatus | src/runner/adapters/types.ts:29-40 | over the last five lines of the trimmed output: `idle` exactly when a line ends in a prompt character, ahead of any error; `error` exactly when there is no prompt and a whole-word `Error`, `ENOENT`, `EACCES`, `fatal` or `panic`; `active` otherwise; never `stopped` |
| Adapters.EarlierLineIgnored | src/runner/adapters/types.ts:30-31 | a line above the last five does not change the reported status |
| Adapters.ShellPromptIsIdle | src/runner/adapters/types.ts:34 | one sample output: the single line `user@host ~ $ `, which ends in a shell prompt, reads as idle |
| Adapters.OrdinaryOutputIsActive | src/runner/adapters/types.ts:39 | one sample output: the single line `Thinking about the task...`, with no prompt and no error word, reads as active |
| Adapters.DetectStatus | src/runner/adapters/ClaudeCodeAdapter.ts:22-24 | each adapter's `detectStatus` is the shared `detectAgentStatus` |
| Adapters.StartCommand | src/runner/adapters/ClaudeCodeAdapter.ts:12-20 | `startCommand` of both adapters (CodexAdapter.ts:12-20 for `codex`); no contract of its own; its promises are in StartCommandWords and BothAdaptersPlain |
| Adapters.StartCommandWords | src/runner/adapters/ClaudeCodeAdapter.ts:12-20 | the shell reads the launch command as `cd <cwd> && <program>`, then `--model <model>` exactly when a model is given, then the auto-approve flag exactly when asked for; the working directory and the model are one word each |
| Adapters.BothAdaptersPlain | src/runner/adapters/CodexAdapter.ts:10-19 | `claude`, `codex` and their auto-approve flags are words the shell does not split |
| Runner.AdapterFor | src/runner/AgentRunner.ts:159-160 | the Claude Code adapter exactly for the `claude-code` type, and Codex for anything else, a missing type included |
| Runner.ValidateAgentName | src/runner/AgentRunner.ts:92-97 | accepts exactly names in `[a-zA-Z0-9_-]+`, and refuses all others with `AGENT_NOT_FOUND` |
| Runner.SanitizeMessage | src/runner/AgentRunner.ts:103-107 | the result is no longer than the message and holds none of the stripped control characters |
| Runner.SanitizeIsSubsequence | src/runner/AgentRunner.ts:103-107 | the result is a subsequence of the message |
| Runner.SanitizeClean | src/runner/AgentRunner.ts:103-107 | a message without the stripped control characters is returned unchanged |
| Runner.SanitizeIdempotent | src/runner/AgentRunner.ts:103-107 | sanitising twice is sanitising once |
| Runner.SanitizeKeepsOthers | src/runner/AgentRunner.ts:103-107 | every other character, tab, newline and carriage return included, keeps its number of occurrences |
| Runner.SanitizeConcat | src/runner/AgentRunner.ts:103-107 | sanitising works character by character: a concatenation sanitises to the concatenation of the sanitised parts |
| Runner.PaneNameHasSlot | src/runner/AgentRunner.ts:161 | the pane `"<session>:0.<index>"` ends in its index |
| Runner.SlotUnique | src/runner/AgentRunner.ts:161 | a pane name ends in only one index |
| Runner.PanesDistinct | src/runner/AgentRunner.ts:161-179 | no two agents share a pane |
| Runner.PaneBookAdd | src/runner/AgentRunner.ts:176-177 | filing a new agent in the next pane slot and bumping the counter keeps all panes distinct |
| Runner.PaneBookRemove | src/runner/AgentRunner.ts:182-189 | removing an agent keeps the panes of the others distinct |
| Runner.PaneBookEdit | src/runner/AgentRunner.ts:324-339 | changing an agent's record without moving it keeps the panes distinct |
| Runner.Health | src/runner/AgentRunner.ts:341-357 | `unknown` exactly without a shell pid; `dead` exactly when the shell is dead, or the recorded agent pid is dead and the child list is empty; `alive` otherwise |
| Runner.RecordedInfo | src/runner/AgentRunner.ts:324-339 | the shell pid becomes the pane pid; the agent pid becomes the first child when the child list was read and is non-empty, and is kept otherwise; nothing else changes |
| Runner.RespawnedInfo | src/runner/AgentRunner.ts:378-389 | the respawn count goes up by exactly one, the agent pid is cleared and the spawn time restamped; nothing else changes |
| Runner.RecordedHealthKnown | src/runner/AgentRunner.ts:324-357 | once a pid is recorded, health is never `unknown` |
| Runner.RespawnedHealth | src/runner/AgentRunner.ts:341-392 | right after a respawn, health follows the shell process alone |
| Runner.VanishedAgentIsDead | src/runner/AgentRunner.ts:341-357 | a recorded agent whose process died with no child left is dead, and one still listed as a child is alive |
| Runner.RecordOf | src/runner/AgentRunner.ts:394-415 | the registry record carries the agent's fields, with 0 for a missing shell pid and the save time for a missing spawn time |
| Runner.CapturedStatus | src/runner/AgentRunner.ts:266-277 | a pane that cannot be captured reads as `error`; otherwise the output's detected status; never `stopped` |
| Runner.AgentRunner.constructor | src/runner/AgentRunner.ts:79-90 | a runner with no session, no agents and pane counter 0 |
| Runner.AgentRunner.CreateSession | src/runner/AgentRunner.ts:109-115 | names the session `crew-<project>`; refuses when it already exists, and otherwise asks tmux to create it |
| Runner.AgentRunner.DestroySession | src/runner/AgentRunner.ts:117-125 | without a session, succeeds and changes nothing; otherwise interrupts every agent, kills the session, and clears the session name, the agents and the pane counter |
| Runner.AgentRunner.Spawn | src/runner/AgentRunner.ts:143-180 | an invalid name (`AGENT_NOT_FOUND`) or a known one (`SPAWN_FAILED`) changes nothing; otherwise the launch command goes to the next pane, and on success the agent is recorded there with respawn count 0 and the counter goes up; a failed send records nothing |
| Runner.AgentRunner.Stop | src/runner/AgentRunner.ts:182-189 | interrupts and removes exactly the named agent; an unknown name gives `AGENT_NOT_FOUND` |
| Runner.AgentRunner.StopAll | src/runner/AgentRunner.ts:191-196 | interrupts every agent once and empties the map |
| Runner.AgentRunner.WaitForReady | src/runner/AgentRunner.ts:198-218 | succeeds for every known agent, on time-out too, and returns early only at the first `idle` seen after an `active`; an unknown agent gives `AGENT_NOT_FOUND` |
| Runner.AgentRunner.SendInitialPrompt | src/runner/AgentRunner.ts:220-235 | sends the prompt file to the agent's pane; an unknown agent gives `AGENT_NOT_FOUND` and nothing is sent |
| Runner.AgentRunner.SendNudge | src/runner/AgentRunner.ts:237-246 | sends the sanitised message to the agent's pane; an unknown agent gives `AGENT_NOT_FOUND` |
| Runner.AgentRunner.ResetContext | src/runner/AgentRunner.ts:248-254 | sends the adapter's clear command to the agent's pane; an unknown agent gives `AGENT_NOT_FOUND` |
| Runner.AgentRunner.GetStatus | src/runner/AgentRunner.ts:256-264 | the detected status of the captured pane, or the capture's error; `AGENT_NOT_FOUND` for an unknown agent; never `stopped` |
| Runner.AgentRunner.IsActive | src/runner/AgentRunner.ts:279-283 | true exactly when the agent's captured pane reads as active |
| Runner.AgentRunner.GetAllStatuses | src/runner/AgentRunner.ts:266-277 | one status per known agent and no others, each read from its own pane |
| Runner.AgentRunner.RecordPid | src/runner/AgentRunner.ts:324-339 | updates the named agent as `Runner.RecordedInfo` says; an unknown agent or an unreadable pane pid changes nothing |
| Runner.AgentRunner.CheckHealth | src/runner/AgentRunner.ts:341-357 | the known agent's health by the decision table of `Runner.Health`; otherwise `AGENT_NOT_FOUND` |
| Runner.AgentRunner.Respawn | src/runner/AgentRunner.ts:359-392 | interrupts the pane and sends the launch command again; on success the agent is updated as `Runner.RespawnedInfo` says; a failed send gives `RESPAWN_FAILED` with the record unchanged |
| Runner.AgentRunner.PersistRegistry | src/runner/AgentRunner.ts:394-415 | the saved registry has the session name and one record per agent, each for a distinct name |
| Runner.AgentRunner.GetAgentInfo | src/runner/AgentRunner.ts:320-322 | the named agent's record, exactly when it is known |
| Runner.AgentRunner.SetSessionName | src/runner/AgentRunner.ts:316-318 | sets the session name and changes nothing else |
| Transitions.ValidTargets | src/store/transitions.ts:3-12 | the `VALID_TRANSITIONS` row of a status; no contract of its own; its promises are in TableBySource, ClosedIsFinalAndNoSelfLoops, TodoOnlyBecomesReady, ClosingAndReturning and TodoIsNeverReentered |
| Transitions.IsValidTransition | src/store/transitions.ts:14-16 | `isValidTransition`; no contract of its own; its promises are in TableBySource, PathToClosed, EveryStatusCanBeClosed, ClosedEndsEveryPath, TodoPathsPassReady and ClosedOnlyAfterReview |
| Transitions.TableBySource | src/store/transitions.ts:14-16 | `isValidTransition(a, b)` holds exactly when `a` is among the statuses from which `b` may be reached |
| Transitions.ClosedIsFinalAndNoSelfLoops | src/store/transitions.ts:3-12 | `closed` has no way out, and no status moves to itself |
| Transitions.TodoOnlyBecomesReady | src/store/transitions.ts:4 | a `todo` task may move only to `ready` |
| Transitions.ClosingAndReturning | src/store/transitions.ts:8-10 | only a task in review can be closed; `blocked` and `changes_requested` lead only back to `in_progress` |
| Transitions.TodoIsNeverReentered | src/store/transitions.ts:3-12 | no status leads back to `todo` |
| Transitions.PathToClosed | src/store/transitions.ts:3-12 | a chain of allowed moves from the given status to `closed` |
| Transitions.EveryStatusCanBeClosed | src/store/transitions.ts:3-12 | from every status there is an allowed way to `closed` |
| Transitions.ClosedEndsEveryPath | src/store/transitions.ts:11 | on a chain of allowed moves, `closed` can only come last |
| Transitions.TodoPathsPassReady | src/store/transitions.ts:4 | a chain of moves from `todo` goes through `ready` next |
| Transitions.ClosedOnlyAfterReview | src/store/transitions.ts:8 | a chain of moves into `closed` arrives there from `in_review` |
| TaskStore.ValidateTaskId | src/store/TaskStore.ts:40-47 | accepts exactly ids of the form `^TASK-\d{3,}$`, and refuses others with `INVALID_ID` |
| TaskStore.TaskIdIsValid | src/store/TaskStore.ts:59-60 | the id made from counter value `n` passes validation and carries the number `n` |
| TaskStore.TaskIdsDistinct | src/store/TaskStore.ts:60 | two counter values give the same id exactly when they are equal |
| TaskStore.ConsecutiveIdsDiffer | src/store/TaskStore.ts:49-66 | two ids drawn in a row carry consecutive numbers, so they differ |
| TaskStore.GetTaskFilePath | src/store/TaskStore.ts:30-38 | a path that does not resolve to a place strictly inside the tasks directory is refused with `INVALID_ID` |
| TaskStore.TaskFilePathContained | src/store/TaskStore.ts:30-38 | every path handed out lies strictly inside the tasks directory and holds no `.` or `..` segment |
| TaskStore.ValidIdPath | src/store/TaskStore.ts:30-38 | a valid id names the file `<id>.md` directly in the tasks directory |
| TaskStore.ParentTraversalRefused | src/store/TaskStore.ts:34-35 | an id that climbs out with `../` is refused |
| TaskStore.ParseTaskFile | src/store/TaskStore.ts:237-250 | a readable file gives its task at the given path; text the front-matter parser cannot read gives `PARSE_ERROR`, and front matter the schema refuses gives `VALIDATION_ERROR` |
| TaskStore.ReadTask | src/store/TaskStore.ts:158-169 | an invalid id gives `INVALID_ID`, and a missing file gives `TASK_NOT_FOUND`; a task read is the one in the file `<id>.md` |
| TaskStore.NewTask | src/store/TaskStore.ts:68-102 | the task `create` builds for a drawn id; no contract of its own; its promises are in NewTaskDefaults, AddingNewTaskKeepsStore and TaskStore.TaskStore.Create |
| TaskStore.NewTaskDefaults | src/store/TaskStore.ts:74-102 | a new task is `todo`, unassigned, at medium priority, with no dependencies, stage or labels unless given; it is created and updated now, and keeps a given body |
| TaskStore.MergePatch | src/store/TaskStore.ts:135-145 | the front-matter spread of `update`; no contract of its own; its promises are in UpdateMerge |
| TaskStore.UpdateTask | src/store/TaskStore.ts:115-147 | the result `update` computes before writing; no contract of its own; its promises are in UpdateGate, UpdateMerge, TodoCannotStart and TaskStore.TaskStore.Update |
| TaskStore.UpdateGate | src/store/TaskStore.ts:115-133 | an update fails as the read fails; for a readable task it fails exactly when the patch names a different status the table does not allow, and then with `INVALID_TRANSITION` |
| TaskStore.UpdateMerge | src/store/TaskStore.ts:135-147 | a successful update replaces exactly the fields the patch gives and stamps `updated_at`; it keeps the id, creation time, file and other fields, and keeps the body unless a new one is given |
| TaskStore.TodoCannotStart | src/store/TaskStore.ts:127-133 | moving a `todo` task to `in_progress` fails with `INVALID_TRANSITION` |
| TaskStore.MatchesFilter | src/store/TaskStore.ts:252-269 | `matchesFilter`; no contract of its own; its promises are in MatchesFilterIsConjunction, EmptyFilterMatchesAll and EmptyStatusListMatchesNothing |
| TaskStore.MatchesFilterIsConjunction | src/store/TaskStore.ts:252-269 | a task matches a filter exactly when its status is among the requested statuses, its assignee and stage are those asked for, and it has one of a non-empty list of labels |
| TaskStore.EmptyFilterMatchesAll | src/store/TaskStore.ts:253 | no filter, a filter without criteria, and an empty label list let every task through |
| TaskStore.EmptyStatusListMatchesNothing | src/store/TaskStore.ts:256-261 | an empty list of statuses is still a criterion, and no task meets it |
| TaskStore.NewFileIsFresh | src/store/TaskStore.ts:49-66 | in a well-kept store, the file of the next id does not exist yet |
| TaskStore.AddingNewTaskKeepsStore | src/store/TaskStore.ts:104-109 | writing the next id's task keeps every file stored under its own id, with no id beyond the counter |
| TaskStore.TaskStore.constructor | src/store/TaskStore.ts:25-28 | a store whose tasks directory is `<crewDir>/tasks` |
| TaskStore.TaskStore.Get | src/store/TaskStore.ts:158-169 | reads a task as `TaskStore.ReadTask` says |
| TaskStore.TaskStore.NextId | src/store/TaskStore.ts:49-66 | moves the counter from `c` to `c + 1`, a missing counter file counting as 0, and returns the id of `c + 1`; the task files are untouched |
| TaskStore.TaskStore.Create | src/store/TaskStore.ts:68-113 | draws the next id and writes the new task with its defaults to `<id>.md`; in a well-kept store that file is new, so no task is overwritten, and the store stays well kept |
| TaskStore.TaskStore.Update | src/store/TaskStore.ts:115-156 | writes the merged task back to its own file when the update succeeds, writes nothing when it fails, and keeps the store well kept |
| TaskListing.OrderIndex | src/cli/commands/tasks.ts:73-74 | a status's place in `STATUS_ORDER`, the first at which it occurs |
| TaskListing.StatusOrderIsAPermutation | src/cli/commands/tasks.ts:19-28 | every status occurs in `STATUS_ORDER`, and only once |
| TaskListing.IdMapKeys | src/cli/commands/tasks.ts:43-46 | the task map has exactly the ids of the listed tasks as keys |
| TaskListing.IdMapLastWins | src/cli/commands/tasks.ts:43-46 | each id maps to the last listed task with that id |
| TaskListing.BuildTaskMap | src/cli/commands/tasks.ts:43-46 | the loop builds that map |
| TaskListing.Occurrences | src/cli/commands/tasks.ts:49-53 | how many tasks have a given status |
| TaskListing.CountsAddUp | src/cli/commands/tasks.ts:49-56 | the per-status counts add up to the number of tasks |
| TaskListing.CountStatuses | src/cli/commands/tasks.ts:49-53 | the loop records, for every status that occurs, its number of tasks, and no entry for a status that does not |
| TaskListing.HeaderCountsClosed | src/cli/commands/tasks.ts:56-58 | the header's completed figure is the number of closed tasks, which is at most the total |
| TaskListing.SummaryStatuses | src/cli/commands/tasks.ts:61-68 | the summary names exactly the statuses with a positive count |
| TaskListing.SummaryParts | src/cli/commands/tasks.ts:61-68 | one part, with icon, status and count, per status in the summary, in the same order |
| TaskListing.BuildSummary | src/cli/commands/tasks.ts:61-68 | the loop over `STATUS_ORDER` builds those parts |
| TaskListing.SummaryNamesOccurringStatuses | src/cli/commands/tasks.ts:19-68 | the summary lists, in `STATUS_ORDER` order, the statuses that occur among the tasks, each with its number of tasks |
| TaskListing.LexCompare | src/cli/commands/tasks.ts:76 | compares ids: 0 exactly for equal ids, otherwise -1 or 1 |
| TaskListing.LexCompareAntisymmetric | src/cli/commands/tasks.ts:76 | swapping the ids negates the comparison |
| TaskListing.LexCompareTransitive | src/cli/commands/tasks.ts:76 | the id comparison is transitive |
| TaskListing.Compare | src/cli/commands/tasks.ts:72-77 | the sort comparator; no contract of its own; its promises are in CompareIsTotalPreorder, LexCompareAntisymmetric, LexCompareTransitive, InsertKeepsOrder and SortedEverywhere |
| TaskListing.CompareIsTotalPreorder | src/cli/commands/tasks.ts:72-77 | the sort comparator, status order first and then id, is total and transitive |
| TaskListing.InsertKeepsTasks | src/cli/commands/tasks.ts:72-77 | inserting a task adds exactly that task |
| TaskListing.InsertKeepsOrder | src/cli/commands/tasks.ts:72-77 | inserting into a sorted list keeps it sorted |
| TaskListing.SortTasks | src/cli/commands/tasks.ts:72-77 | the listing is sorted by the comparator |
| TaskListing.SortKeepsTasks | src/cli/commands/tasks.ts:72 | the listing is a permutation of the tasks |
| TaskListing.SortedEverywhere | src/cli/commands/tasks.ts:72-77 | in the listing, every task compares at most equal to every later one |
| TaskListing.ListingGroupsByStatus | src/cli/commands/tasks.ts:72-77 | the listing holds every task and lists them by `STATUS_ORDER` |
| TaskListing.OpenDependencies | src/cli/commands/tasks.ts:88-91 | the filter keeps no more ids than `depends_on` holds |
| TaskListing.OpenDependenciesMembers | src/cli/commands/tasks.ts:88-91 | the ids kept are exactly the dependencies that exist and are not closed, so unknown ids are ignored; nothing is kept exactly when every known dependency is closed |
| TaskListing.OpenDependenciesInOrder | src/cli/commands/tasks.ts:88-91 | the filter keeps `depends_on` order: the ids kept from `a + b` are those of `a` followed by those of `b` |
| TaskListing.OpenDependencyOfOne | src/cli/commands/tasks.ts:88-91 | a single id is kept exactly when it names an existing task that is not closed |
| TaskListing.WaitingNote | src/cli/commands/tasks.ts:86-95 | the ` (waiting: …)` note; no contract of its own; its promises are in WaitingOnlyOnOpenDependencies and NoNoteWhenDependenciesDone |
| TaskListing.WaitingOnlyOnOpenDependencies | src/cli/commands/tasks.ts:86-95 | a dependency is waited on exactly when the task is `todo` and the dependency exists and is not closed, and then the note names it |
| TaskListing.NoNoteWhenDependenciesDone | src/cli/commands/tasks.ts:86-95 | when every known dependency is closed, there is no waiting note |
| Gitignore.MissingEntries | src/cli/commands/init.ts:91-93 | the filter keeps no more entries than it is given |
| Gitignore.MissingEntriesMembers | src/cli/commands/init.ts:91-93 | the entries kept are exactly those that are not yet a substring of the content |
| Gitignore.MissingEntriesInOrder | src/cli/commands/init.ts:91-93 | the filter keeps list order: the entries kept from `a + b` are those of `a` followed by those of `b` |
| Gitignore.MissingEntryOfOne | src/cli/commands/init.ts:91-93 | a single entry is kept exactly when the content does not hold it |
| Gitignore.MergeGitignore | src/cli/commands/init.ts:91-97 | the file `crew init` writes back, or nothing; no contract of its own; its promises are in NothingWrittenIffAllPresent, MergeKeepsAndAdds and MergeIsIdempotent |
| Gitignore.NothingWrittenIffAllPresent | src/cli/commands/init.ts:91-94 | nothing is written exactly when every entry already occurs in the file |
| Gitignore.MergeKeepsAndAdds | src/cli/commands/init.ts:95 | the new file starts with the old content, trailing whitespace trimmed, and holds every entry that was missing |
| Gitignore.InitEntriesEndInNonSpace | src/cli/commands/init.ts:79-84 | none of the entries `crew init` adds ends in whitespace |
| Gitignore.MergeIsIdempotent | src/cli/commands/init.ts:79-97 | merging into a file just merged writes nothing, so running `crew init` twice adds no duplicates |

## Left out

- File I/O is not modelled. This covers reading and writing `state.json`, the task files, the counter file, `REQUEST.md`, `.gitignore`, the agent registry and the prompt files, and the temp-then-rename atomic writes. Stored state is a field or a map, and a failed write or read is not modelled.
- YAML, front matter and zod validation are taken as done: definitions and task files arrive decoded, as datatypes. The only distinctions kept are "not readable at all" and "refused by the schema".
- Fractional and infinite `max_cycles`: the field is an `int` in `Schema.WorkflowDefinition`, while `z.number()` at src/workflow/schema.ts:16 also accepts fractional and infinite numbers. A finite fraction `m` behaves like its ceiling, because `cycleCount` is a whole number and `cycleCount >= m` holds exactly when `cycleCount >= ceil(m)`. `max_cycles: .inf` cannot be written, so the model has no looping workflow that never stops with `MAX_CYCLES_EXCEEDED`.
- `TaskStore.list`, `watch` and `stopWatch` are left out: directory listing, timers and the mtime cache have no logic beyond what `matchesFilter` and `parseTaskFile` model.
- TaskStore.TaskStore.NextId: assumes the counter file holds a number. Content that `parseInt` reads as `NaN` would give the id `TASK-NaN`, which is not modelled.
- TaskStore.GetTaskFilePath: `path.resolve` is modelled over already normalised path segments with `/` as the only separator. Windows separators and symbolic links are not modelled.
- TaskStore.GetTaskFilePath: the source throws `Error("INVALID_ID: path traversal detected")` (src/store/TaskStore.ts:34-36); the model returns `Err(InvalidId)` instead of raising. `get`, `update` and `create` cannot reach this error, because they validate the id first.
- TaskListing.LexCompare: is plain code-point order, not `localeCompare`'s locale collation.
- TaskListing.SortTasks: is a stable insertion sort. The order of two tasks with the same status and the same id is not claimed to be the engine's.
- The printed layout of `crew tasks` (icons, `padEnd(18)`, assignee and the dependency arrow) and all console output are left out. So are the `crew init` steps other than the `.gitignore` merge, which are directory creation and I/O.
- Clocks are parameters: `now` strings for ISO timestamps, an integer clock for the poll loop, and a `LocalTime` for `formatNewEntry`. Request.FormatParseRoundTrip: holds for years 1000 to 9999, because the heading pattern wants four year digits.
- `Bun.sleep`, the poll interval and the one-second polling in `waitForReady` are left out. Each poll pass and each `waitForReady` poll is one observation.
- Poll.PollTick: reads one clock value for the recover and nudge steps of a pass. The source reads `Date.now()` separately in each step.
- Poll.PollLoop: requires the engine to hold the cached definition, which `crew start` and `crew continue` have loaded before the loop.
- Poll.GateStep: models the lower-casing of the answer as accepting exactly `y` and `Y`.
- `promptAgent` is one `PromptAgent` action. Its steps are context reset, loading the role template, context, goal and YAML, waiting and sending. The prompt text is `Prompt.BuildPrompt`, but the link between the action and that text is not modelled.
- `spawnAgents` and `recordAllPids` are left out. They are `for` loops that call `spawn` and `recordPid` per agent, and those calls are modelled.
- `setupLayout` and `writeInbox` are left out, because they only issue tmux and file commands.
- The `SIGTERM` that `respawn` sends to the old agent process, signal handlers, `process.exit` and the `startCommand` and `continueCommand` orchestration are left out.
- The logger (`CrewLogger`) and `src/cli/config.ts` are left out. Caps and intervals are parameters.
- JavaScript `Map` insertion order is not modelled. The agent map is a Dafny `map`, so `stopAll`, `destroySession`, `getAllStatuses` and `persistRegistry` state their results for an order the method chooses, each agent appearing once.
- An absent model and the empty string are one value (`""`). The adapters treat both alike.
- Request.NewFileRoundTrip: covers a first request written to a new `REQUEST.md`. Appending to an existing file has no round-trip lemma.
- The workflow search paths, the `CREW_HOME` directory included, are a parameter of the engine.
- Engine.WorkflowEngine.ActivateNextPending: requires the current index to be in range. Its one caller, `continueWorkflow`, only calls it when the current stage is completed.

/**
 * The text an agent is started with, and the agent list a workflow's stages
 * produce. `buildPrompt` exists twice: the six-argument version of
 * `_shared.ts`, which embeds the workflow's YAML when it has it, and the
 * older four-argument version of `start.ts`.
 */
module Prompt {
  import opened Kernel
  import opened Schema
  import opened Text
  import Adapters
  import Runner

  /** The closing instruction of every prompt. */
  const Closing: string := "上記の指示とゴールに従って作業を開始してください。"

  /** The lines after the workflow section. */
  const TasksTail: string := "Tasks directory: .crew/tasks/\n\n" + Closing

  const ContextHeader: string := "\n## Shared Context\n\n"
  const GoalHeader: string := "\n## Goal\n\n"
  const WorkflowHeader: string := "\n## Workflow\n\n"

  /** A prompt is written as a sequence of pieces, joined without separators. */
  function Cat(parts: seq<string>): string
    decreases |parts|
  {
    if parts == [] then "" else parts[0] + Cat(parts[1..])
  }

  lemma {:induction false} CatAppend(xs: seq<string>, ys: seq<string>)
    ensures Cat(xs + ys) == Cat(xs) + Cat(ys)
    decreases |xs|
  {
    if xs == [] {
      assert xs + ys == ys;
    } else {
      assert (xs + ys)[1..] == xs[1..] + ys;
      CatAppend(xs[1..], ys);
    }
  }

  /** Each piece occurs in the joined text. */
  lemma {:induction false} ContainsPart(parts: seq<string>, i: nat)
    requires i < |parts|
    ensures Contains(Cat(parts), parts[i])
    decreases i
  {
    if i == 0 {
      assert "" + parts[0] + Cat(parts[1..]) == Cat(parts);
      ContainsInfix("", parts[0], Cat(parts[1..]));
    } else {
      ContainsPart(parts[1..], i - 1);
      ContainsPrefixed(parts[0], Cat(parts[1..]), parts[i]);
    }
  }

  lemma SplitAt(a: string, b: string)
    ensures (a + b)[..|a|] == a && (a + b)[|a|..] == b
  {
  }

  /** The shared-context section: empty exactly when the context is. */
  function ContextSection(context: string): (r: string)
    ensures r == "" <==> context == ""
    ensures context != "" ==> StartsWith(r, ContextHeader) && Contains(r, context)
  {
    if context == "" then ""
    else
      var r := ContextHeader + context + "\n";
      assert r[..|ContextHeader|] == ContextHeader;
      ContainsInfix(ContextHeader, context, "\n");
      r
  }

  /** The fenced YAML block. */
  function Fence(workflowYaml: string): string {
    "```yaml\n" + workflowYaml + "```"
  }

  /**
   * The workflow section of the newer prompt: the role's place in the
   * workflow and the YAML in a fenced block, or only the workflow's name
   * when no YAML was found.
   */
  function WorkflowParts(role: string, workflowName: string, workflowYaml: string): seq<string> {
    if workflowYaml != "" then
      [WorkflowHeader, "あなたは以下のワークフローの中で実行されています。あなたの役割は \"" + role + "\" ステージです。",
       "\n\n", Fence(workflowYaml), "\n"]
    else [WorkflowHeader, "Workflow: " + workflowName + "\n"]
  }

  /** Everything up to the goal line, shared by both prompts. */
  function GoalParts(roleTemplate: string, goal: string, context: string): seq<string> {
    [roleTemplate + "\n", ContextSection(context), GoalHeader, goal, "\n"]
  }

  /** `buildPrompt` of `_shared.ts`. */
  function BuildPrompt(roleTemplate: string, goal: string, role: string, workflowName: string,
                       context: string, workflowYaml: string): string {
    Cat(GoalParts(roleTemplate, goal, context) + WorkflowParts(role, workflowName, workflowYaml) + ["\n", TasksTail])
  }

  /** `buildPrompt` of `start.ts`: no YAML, and no blank line before the tasks directory. */
  function LegacyBuildPrompt(roleTemplate: string, goal: string, workflowName: string, context: string): string {
    Cat(GoalParts(roleTemplate, goal, context) + [WorkflowHeader, "Workflow: " + workflowName + "\n"] + [TasksTail])
  }

  lemma CatStartsWith(parts: seq<string>)
    requires |parts| > 0
    ensures StartsWith(Cat(parts), parts[0])
  {
    SplitAt(parts[0], Cat(parts[1..]));
  }

  lemma CatEndsWith(parts: seq<string>)
    requires |parts| > 0
    ensures EndsWith(Cat(parts), parts[|parts| - 1])
  {
    var n := |parts| - 1;
    assert parts == parts[..n] + [parts[n]];
    CatAppend(parts[..n], [parts[n]]);
    assert Cat([parts[n]]) == parts[n];
    SplitAt(Cat(parts[..n]), parts[n]);
  }

  /**
   * Both prompts open with the role template on its own line and close with
   * the tasks directory and the closing instruction.
   */
  lemma PromptFrame(roleTemplate: string, goal: string, role: string, workflowName: string,
                    context: string, workflowYaml: string)
    ensures var p := BuildPrompt(roleTemplate, goal, role, workflowName, context, workflowYaml);
      StartsWith(p, roleTemplate + "\n") && EndsWith(p, TasksTail)
    ensures var p := LegacyBuildPrompt(roleTemplate, goal, workflowName, context);
      StartsWith(p, roleTemplate + "\n") && EndsWith(p, TasksTail)
  {
    var ps := GoalParts(roleTemplate, goal, context) + WorkflowParts(role, workflowName, workflowYaml) + ["\n", TasksTail];
    var qs := GoalParts(roleTemplate, goal, context) + [WorkflowHeader, "Workflow: " + workflowName + "\n"] + [TasksTail];
    CatStartsWith(ps);
    CatEndsWith(ps);
    CatStartsWith(qs);
    CatEndsWith(qs);
  }

  /** How a prompt splits around the context section. */
  lemma AroundContext(roleTemplate: string, context: string, rest: seq<string>, goal: string)
    ensures Cat(GoalParts(roleTemplate, goal, context) + rest)
      == (roleTemplate + "\n") + ContextSection(context) + Cat([GoalHeader, goal, "\n"] + rest)
  {
    var ps := GoalParts(roleTemplate, goal, context) + rest;
    assert ps == [roleTemplate + "\n", ContextSection(context)] + ([GoalHeader, goal, "\n"] + rest);
    CatAppend([roleTemplate + "\n", ContextSection(context)], [GoalHeader, goal, "\n"] + rest);
    assert Cat([roleTemplate + "\n", ContextSection(context)]) == (roleTemplate + "\n") + ContextSection(context);
  }

  /**
   * The context's only effect on the prompt is its own section, right after
   * the role template's line: with an empty context nothing is inserted, and
   * with any other the `## Shared Context` header and the context are.
   */
  lemma ContextOnlyAddsItsSection(roleTemplate: string, goal: string, role: string, workflowName: string,
                                  context: string, workflowYaml: string)
    ensures var plain := BuildPrompt(roleTemplate, goal, role, workflowName, "", workflowYaml);
      var k := |roleTemplate| + 1;
      k <= |plain|
      && BuildPrompt(roleTemplate, goal, role, workflowName, context, workflowYaml)
           == plain[..k] + ContextSection(context) + plain[k..]
  {
    var rest := WorkflowParts(role, workflowName, workflowYaml) + ["\n", TasksTail];
    assert forall c :: (GoalParts(roleTemplate, goal, c) + WorkflowParts(role, workflowName, workflowYaml) + ["\n", TasksTail]
      == GoalParts(roleTemplate, goal, c) + rest);
    AroundContext(roleTemplate, context, rest, goal);
    AroundContext(roleTemplate, "", rest, goal);
    var tail := Cat([GoalHeader, goal, "\n"] + rest);
    assert ContextSection("") == "";
    assert (roleTemplate + "\n") + "" == roleTemplate + "\n";
    assert BuildPrompt(roleTemplate, goal, role, workflowName, "", workflowYaml) == (roleTemplate + "\n") + tail;
    SplitAt(roleTemplate + "\n", tail);
  }

  /** The same holds for the older prompt. */
  lemma LegacyContextOnlyAddsItsSection(roleTemplate: string, goal: string, workflowName: string, context: string)
    ensures var plain := LegacyBuildPrompt(roleTemplate, goal, workflowName, "");
      var k := |roleTemplate| + 1;
      k <= |plain|
      && LegacyBuildPrompt(roleTemplate, goal, workflowName, context) == plain[..k] + ContextSection(context) + plain[k..]
  {
    var rest := [WorkflowHeader, "Workflow: " + workflowName + "\n"] + [TasksTail];
    assert forall c :: (GoalParts(roleTemplate, goal, c) + [WorkflowHeader, "Workflow: " + workflowName + "\n"] + [TasksTail]
      == GoalParts(roleTemplate, goal, c) + rest);
    AroundContext(roleTemplate, context, rest, goal);
    AroundContext(roleTemplate, "", rest, goal);
    var tail := Cat([GoalHeader, goal, "\n"] + rest);
    assert ContextSection("") == "";
    assert (roleTemplate + "\n") + "" == roleTemplate + "\n";
    assert LegacyBuildPrompt(roleTemplate, goal, workflowName, "") == (roleTemplate + "\n") + tail;
    SplitAt(roleTemplate + "\n", tail);
  }

  /** A non-empty context appears, under its header, in both prompts. */
  lemma SharedContextIncluded(roleTemplate: string, goal: string, role: string, workflowName: string,
                              context: string, workflowYaml: string)
    requires context != ""
    ensures Contains(BuildPrompt(roleTemplate, goal, role, workflowName, context, workflowYaml), ContextHeader + context + "\n")
    ensures Contains(LegacyBuildPrompt(roleTemplate, goal, workflowName, context), ContextHeader + context + "\n")
  {
    ContainsPart(GoalParts(roleTemplate, goal, context) + WorkflowParts(role, workflowName, workflowYaml) + ["\n", TasksTail], 1);
    ContainsPart(GoalParts(roleTemplate, goal, context) + [WorkflowHeader, "Workflow: " + workflowName + "\n"] + [TasksTail], 1);
  }

  /** Both prompts carry the goal, right after its heading. */
  lemma PromptsCarryGoal(roleTemplate: string, goal: string, role: string, workflowName: string,
                         context: string, workflowYaml: string)
    ensures Contains(BuildPrompt(roleTemplate, goal, role, workflowName, context, workflowYaml), goal)
    ensures Contains(LegacyBuildPrompt(roleTemplate, goal, workflowName, context), goal)
  {
    ContainsPart(GoalParts(roleTemplate, goal, context) + WorkflowParts(role, workflowName, workflowYaml) + ["\n", TasksTail], 3);
    ContainsPart(GoalParts(roleTemplate, goal, context) + [WorkflowHeader, "Workflow: " + workflowName + "\n"] + [TasksTail], 3);
  }

  /** The newer prompt embeds the YAML in a fenced block when there is one, and names the workflow otherwise. */
  lemma PromptDescribesWorkflow(roleTemplate: string, goal: string, role: string, workflowName: string,
                                context: string, workflowYaml: string)
    ensures workflowYaml != "" ==>
      Contains(BuildPrompt(roleTemplate, goal, role, workflowName, context, workflowYaml), Fence(workflowYaml))
    ensures workflowYaml == "" ==>
      Contains(BuildPrompt(roleTemplate, goal, role, workflowName, context, workflowYaml), "Workflow: " + workflowName + "\n")
  {
    var ps := GoalParts(roleTemplate, goal, context) + WorkflowParts(role, workflowName, workflowYaml) + ["\n", TasksTail];
    if workflowYaml != "" {
      ContainsPart(ps, 8);
    } else {
      ContainsPart(ps, 6);
    }
  }

  /**
   * Without YAML the newer prompt is the older one with one blank line more,
   * before the tasks directory.
   */
  lemma NewerPromptAddsBlankLine(roleTemplate: string, goal: string, role: string, workflowName: string, context: string)
    ensures var older := LegacyBuildPrompt(roleTemplate, goal, workflowName, context);
      var m := |older| - |TasksTail|;
      0 <= m && BuildPrompt(roleTemplate, goal, role, workflowName, context, "") == older[..m] + "\n" + older[m..]
  {
    var head := GoalParts(roleTemplate, goal, context) + [WorkflowHeader, "Workflow: " + workflowName + "\n"];
    assert WorkflowParts(role, workflowName, "") == [WorkflowHeader, "Workflow: " + workflowName + "\n"];
    CatAppend(head, ["\n", TasksTail]);
    CatAppend(head, [TasksTail]);
    assert Cat(["\n", TasksTail]) == "\n" + TasksTail;
    assert Cat([TasksTail]) == TasksTail;
    var older := LegacyBuildPrompt(roleTemplate, goal, workflowName, context);
    assert older == Cat(head) + TasksTail;
    SplitAt(Cat(head), TasksTail);
  }

  /** `AgentEntry`: what `spawnAgents` passes to `spawn` for one stage. */
  datatype AgentEntry = AgentEntry(name: string, role: string, cliType: Option<Runner.CliType>, model: string)

  /**
   * `buildAgentList`: one agent per stage, named after its role. The CLI type
   * is read from a `provider` field the stage schema does not have, so it is
   * always undefined.
   */
  function BuildAgentList(stages: seq<StageDefinition>): (r: seq<AgentEntry>)
    ensures |r| == |stages|
    ensures forall i :: 0 <= i < |r| ==> r[i].name == stages[i].role && r[i].role == stages[i].role
    ensures forall i :: 0 <= i < |r| ==> r[i].model == stages[i].model
  {
    seq(|stages|, i requires 0 <= i < |stages| => AgentEntry(stages[i].role, stages[i].role, None, stages[i].model))
  }

  /** Every agent of a workflow is therefore started with the Codex adapter. */
  lemma EveryAgentGetsCodex(stages: seq<StageDefinition>)
    ensures forall e :: e in BuildAgentList(stages) ==> Runner.AdapterFor(e.cliType) == Adapters.Codex
  {
  }

  /** The agent names are distinct exactly when the stage roles are, so a repeated role's second spawn is refused. */
  lemma AgentNamesDistinctIffRolesDistinct(stages: seq<StageDefinition>)
    ensures var r := BuildAgentList(stages);
      (forall i, j :: 0 <= i < j < |r| ==> r[i].name != r[j].name)
      <==> (forall i, j :: 0 <= i < j < |stages| ==> stages[i].role != stages[j].role)
  {
    var r := BuildAgentList(stages);
    assert forall i :: 0 <= i < |r| ==> r[i].name == stages[i].role;
  }
}
